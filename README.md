# naghelp in Dafny

A model of the core of naghelp (python-nagios-helpers), a library for
writing Nagios plugins, together with proofs about that model. The
model covers six parts of the library:

- **Data collection** (`naghelp/collect.py`) has two halves.
  - Interactive sessions. `Expect` runs a step program on a spawned child;
    `Telnet` and `Ssh` log in and run commands. Each session has a run
    (`run`), a batch (`mrun`) and, for `Ssh`, a script (`run_script`).
  - Single functions. `_filter_result` validates output; `runsh`,
    `runshex`, `mrunsh` and `mrunshex` run local commands;
    `search_invalid_port` checks ports; `Snmp` selects credentials, and
    its `get_oid_range`, `mget`, `dwalk`, `twalk` and `jwalk` shape
    results.
- **The plugin response** (`naghelp/response.py`). `PluginResponse` holds
  a level, the messages of each level, the begin, more and end sections
  and the performance data. It also builds the synopsis, renders the
  output and sends it.
- **Performance data** (`naghelp/perf.py`). `PerfData` checks field values
  in its setters, quotes labels and renders the Nagios `label=value[uom];warn;crit;min;max` line.
- **The host** (`naghelp/host.py`). `Host` gathers its parameters from the
  environment, the command line and a database, with a fixed precedence.
- **Gauges** (`naghelp/mixins.py`). `GaugeMixin` checks values against
  thresholds and against a stored reference value (an "etalon").
- **Plugin rules** (`naghelp/plugin.py`) cover five things:
  - the description of host parameters;
  - the required-field check with its fast response;
  - the port choice;
  - the logger level;
  - plugin name resolution.

Remote ends are oracles. A pexpect child or a telnet connection is a
`Channel.Child`: a script of what each `expect` call gets back, and a log
of what was sent. A wait that matches nothing ends in one of two ways:
the caller's SIGALRM `Timeout` fires first (`TimeoutError`, which `run` and
`mrun` turn into `<timeout>`), or the channel's own timeout runs out first
(`pexpect.TIMEOUT`, `socket.timeout`), which escapes like an end of file.
An `exec_command` is a list of prepared answers. A local
process is a function from the command to its outcome. Objects whose
methods change their fields are classes: the sessions, `PluginResponse`,
`PerfData`, `Host`, `GaugeMixin` and `ActivePlugin`. Each method's
`ensures` gives the new state as a function of the old one, and the lemmas
about those functions state what the library promises.

Files and modules:

| file | module | what it holds |
|---|---|---|
| results.dfy | Results | `Option` and `Result` values |
| text.dfy | Text | Python string operations: `split`, `join`, `splitlines`, `lower`, `strip`, `find`, `int`/`str` |
| channel.dfy | Channel | the remote-end oracle and its event log |
| steps.dfy | ExpectSteps | `Expect._expect_steps`, the step engine |
| output.dfy | CommandOutput | clean-up of the text a command leaves on a terminal |
| validate.dfy | Validate | `_filter_result` and `_raise_unexpected_result` |
| batch.dfy | Batch | the shared logic of `run` and `mrun` |
| expect_session.dfy | ExpectSession | class `Expect` |
| telnet_session.dfy | TelnetSession | class `Telnet` |
| ssh_session.dfy | SshSession | class `Ssh` |
| local.dfy | LocalCommand | `runsh`, `runshex`, `mrunsh`, `mrunshex`, `search_invalid_port` |
| snmp.dfy | SnmpCollect | the `Snmp` pieces listed above |
| response.dfy | Response | levels, message lists and the `add*` family |
| response_output.dfy | ResponseOutput | the synopsis, the sections, `get_output` and `send` |
| response_object.dfy | ResponseObject | class `PluginResponse` |
| perf.dfy | Perf | class `PerfData` |
| host.dfy | HostData | class `Host` |
| gauge.dfy | Gauge | class `GaugeMixin` |
| plugin.dfy | Plugin | the `Plugin`/`ActivePlugin` rules |

## Model

| member | source | states |
|---|---|---|
| ExpectSteps.ProgramSteps | naghelp/collect.py:529-533 | a program given as one bare `(pattern, answer)` pair becomes a one-step program with that single alternative; a list of steps is kept as it is |
| ExpectSteps.RewritePattern | naghelp/collect.py:553-557 | `None` becomes the end-of-file marker and nothing else does; a leading `^` becomes `[\r\n]`; any other text is unchanged |
| ExpectSteps.Candidates | naghelp/collect.py:565-578 | the patterns expected at a step are the step's own alternatives followed by the next step's; at the last step they are only its own |
| ExpectSteps.Patterns | naghelp/collect.py:579 | one rewritten pattern per alternative, in the same order |
| ExpectSteps.AnswerReachesWire | naghelp/collect.py:589-596 | a formatted answer reaches the wire as exactly that text, whether it goes out by `send` or by `sendline` without its final `\n`; it goes out by `sendline` iff it ends with `\n` |
| ExpectSteps.Advance | naghelp/collect.py:606-614 | a match among the next step's alternatives moves to the next step and resets the loop counter to 1; reaching the last index ends the run with `''`; a match among the step's own alternatives raises the counter, and past 10 the run fails with `Too many expect` |
| ExpectSteps.Dispatch | naghelp/collect.py:587-605 | BREAK ends the run with `''`; RESPONSE returns the text before the match plus `.`; KILL returns the same and kills the child with signal 0; a text answer is formatted and sent before the advance test; no answer goes straight to the advance test |
| ExpectSteps.Iterate | naghelp/collect.py:563-614 | an empty step, or an empty lookahead step read after a step that is not sole end-of-file, fails with the `IndexError` of `expects[0]` or `next_expects[0]`; a sole end-of-file step is taken as match 0 with no expect call; otherwise one expect call on the candidates, where end of file fails with `No more data (EOF)`, the alarm with its `TimeoutError` and `pexpect.TIMEOUT` with itself; any pass that continues either advances one step with the counter at 1, or stays with the counter raised and at most 10 |
| ExpectSteps.IterateLog | naghelp/collect.py:563-614 | one pass adds at most two events to the log (one expect call and one answer) and keeps the earlier ones |
| ExpectSteps.RunLogBound | naghelp/collect.py:560-617 | the loop guard bounds every run: it finishes after at most `2 * (11 * remaining steps - counter)` new events, and the earlier log is kept |
| ExpectSteps.WellFormedNeverEmptyStep | naghelp/collect.py:563-578 | a program whose steps all have an alternative never raises the `IndexError` of an empty step |
| ExpectSteps.EmptyStepUnreached | naghelp/collect.py:563-578 | an empty step is read only when reached: after a BREAK at step 0 an empty third step does no harm and the run gives `''`, while a pass at that step fails with `IndexError` |
| ExpectSteps.OneStepNeverFinishesQuietly | naghelp/collect.py:606-614 | a one-step program without a BREAK answer never advances: it ends with an error, or with a KILL/RESPONSE message ending in `.` |
| ExpectSteps.LastStepNeverCurrent | naghelp/collect.py:606-610 | no pass makes the last step the current one, so it is only ever matched as lookahead |
| ExpectSteps.SoleEofCallsNoExpect | naghelp/collect.py:570-572 | a pass at a sole end-of-file step makes no expect call |
| ExpectSteps.GuardTrips | naghelp/collect.py:611-614 | when every expect of a one-step program matches its own pattern, the run fails with `Too many expect` on the rewritten pattern after exactly 11 expect calls and 11 answers from a fresh counter |
| Channel.PexpectOn | naghelp/collect.py:582-585 | the outcome of one pexpect `expect`: a match gives its index (always below the number of patterns) and the text before it; end of file is a match iff an end-of-file marker is among the patterns, and then the index is that of the last such marker; no match before the caller's alarm is `TimedOut`, and no match before pexpect's own timeout is `OwnTimeout` (`pexpect.TIMEOUT`); the call is logged |
| Channel.IndexOfEof | naghelp/collect.py:583 | the index of the last end-of-file marker among the patterns (pexpect's searcher keeps overwriting its EOF index, so a later marker wins), or the number of patterns when there is none |
| Channel.TwoEofMarkersPickLast | naghelp/collect.py:583 | with end-of-file markers at positions 0 and 2 (and another pattern between), the one reported is at position 2 |
| Channel.TelnetExpectOn | naghelp/collect.py:888 | the outcome of one telnetlib `expect`: the matched index with the buffer; `-1` with the buffer at end of file when text was read; end of file on an empty buffer is an error; the alarm and the socket's own timeout are told apart |
| Channel.SendLineOfChopped | naghelp/collect.py:591-593 | `sendline(t[:-1])` of a text ending in `\n` puts the same bytes on the wire as `send(t)` |
| Channel.Child.Expect | naghelp/collect.py:582 | the child's state and the reply are those of `PexpectOn` |
| Channel.Child.TelnetExpect | naghelp/collect.py:888 | the child's state and the reply are those of `TelnetExpectOn` |
| Channel.Child.Send | naghelp/collect.py:596 | `send(t)` logs exactly one `Sent(t)` event and changes nothing else |
| Channel.Child.SendLine | naghelp/collect.py:593 | `sendline(t)` logs exactly one `SentLine(t)` event and changes nothing else |
| Channel.Child.Kill | naghelp/collect.py:599 | `kill(sig)` logs exactly one `Killed(sig)` event and changes nothing else |
| Channel.Child.Close | naghelp/collect.py:917 | `close()` logs exactly one `Closed` event and changes nothing else |
| ExpectSession.NormalizeProgram | naghelp/collect.py:530-533 | a missing program is no step at all; a given one is normalised by `ProgramSteps` |
| ExpectSession.LoginProgram | naghelp/collect.py:546-548 | the login program is `login_steps` followed, when the prompt is truthy, by one `(prompt, None)` step |
| ExpectSession.LoginProgramWellFormed | naghelp/collect.py:548 | when every login step has an alternative, so does every step of the login program |
| ExpectSession.LoginNeverEmptyStep | naghelp/collect.py:546-551 | login steps without an empty step never make the login fail on the `IndexError` of an empty step |
| ExpectSession.Expect.constructor | naghelp/collect.py:521-542 | the configuration holds the normalised login and logout programs; the session is neither inside `with` nor connected |
| ExpectSession.Expect.FollowSteps | naghelp/collect.py:559-617 | the loop of `_expect_steps` returns what `RunProgram` says and leaves the child in the state it says |
| ExpectSession.Expect.StepOnce | naghelp/collect.py:564-614 | one turn of the loop is one `Iterate` pass |
| ExpectSession.Expect.Answer | naghelp/collect.py:587-614 | the answer and advance part of a turn is `Dispatch` |
| ExpectSession.Expect.Open | naghelp/collect.py:544-551 | login runs the login program; a non-empty message it returns becomes a `ConnectionError`; `is_connected` is set exactly when login succeeds |
| ExpectSession.Expect.Enter | naghelp/collect.py:619-621 | `__enter__` sets `in_with` and leaves `is_connected` alone |
| ExpectSession.Expect.Close | naghelp/collect.py:627-638 | outside `with`, `close` clears `is_connected`, sends the logout command, runs the logout steps and kills the child; inside `with` it does nothing |
| ExpectSession.Expect.Exit | naghelp/collect.py:623-625 | `__exit__` clears `in_with`, then closes |
| ExpectSession.Expect.RunCmd | naghelp/collect.py:640-658 | `_run_cmd`: sends a truthy command, expects the prompt, and cleans the text before it as `ExpectOutputAsWritten` does; end of file is `No more data (EOF)`; the alarm is a late command, while `pexpect.TIMEOUT` is an error that escapes |
| ExpectSession.Expect.Run | naghelp/collect.py:660-727 | when not connected, `NotConnected` and the child is untouched; otherwise one command, cleaned as written, validated with the argument-or-object checks, then closed when `auto_close`; afterwards the session is connected exactly when it was and the close was not reached (inside `with`, no `auto_close`, or an error of the command itself, such as `pexpect.TIMEOUT`); only the alarm's `TimeoutError` becomes `<timeout>` |
| ExpectSession.Expect.MRunLoop | naghelp/collect.py:780-797 | the batch loop is `MRunFrom`: only the alarm's `TimeoutError` gives the `<timeout>` sentinel (dropped under an empty key); `pexpect.TIMEOUT` ends the batch with that error |
| ExpectSession.Expect.MRun | naghelp/collect.py:729-800 | `NotConnected` when not connected; otherwise the batch, validated with the effective checks, then closed when `auto_close`; afterwards the session is connected exactly when it was and the close was not reached (inside `with`, no `auto_close`, or a failed batch, such as one that met `pexpect.TIMEOUT`) |
| ExpectSession.PromptOnlyNeverConnects | naghelp/collect.py:546-551 | with no login steps and a truthy prompt, construction fails on every channel, even one that shows the prompt: the program is the single step `(prompt, None)`, a match of a step's own alternative never advances (line 606), so the loop ends only with the EOF error, the timeout or `Too many expect` (lines 582-585, 612-614) |
| ExpectSession.OwnTimeoutEscapes | naghelp/collect.py:716-723 | `pexpect.TIMEOUT` is not caught: `_run_cmd` fails with it after the one expect call, `run` and `mrun` return that error without closing, and no `<timeout>` sentinel is validated |
| ExpectSession.CloseIsNotIdempotent | naghelp/collect.py:627-637 | two closes outside `with` send the logout command and kill the child twice: `close` does not look at `is_connected` |
| ExpectSession.CmdSendsOnce | naghelp/collect.py:641-648 | a command sends exactly one line when it is truthy, then makes exactly one expect call on the prompt |
| ExpectSession.CmdOutputOfTranscript | naghelp/collect.py:652-657 | a terminal transcript of the echoed command and one output line gives that line preceded by `\n` (see Findings) |
| CommandOutput.StripEchoSuffix | naghelp/collect.py:654-655 | stripping the echo keeps a suffix of the text: the whole text when the command does not occur, and otherwise text that does not start with `\n` |
| CommandOutput.StripEchoFirst | naghelp/collect.py:654-655 | with the first occurrence of the command at `i`, the strip keeps what follows it minus the newlines right after it |
| CommandOutput.ExpectOutputClean | naghelp/collect.py:652-657 | the Expect clean-up, as written and corrected, leaves no `\r` and no trailing line break |
| CommandOutput.PromptOutputClean | naghelp/collect.py:930-938 | the Telnet and Ssh clean-up leaves no `\r` |
| CommandOutput.PromptOutputOfTranscript | naghelp/collect.py:929-938 | some text, the echoed command, `\n`, the output, `\n` and the prompt line give exactly the output |
| CommandOutput.PromptOutputAfterEcho | naghelp/collect.py:932-936 | after the first echo of the command, an output line and the prompt line, the clean-up gives the output |
| CommandOutput.DropPromptLine | naghelp/collect.py:935-936 | without its last line, a text ending in `\n` and the prompt is the text before that `\n` |
| CommandOutput.ExpectOutputKeepsLeadingNewline | naghelp/collect.py:654-657 | as written, a terminal's `cmd\r\nline\r\n` gives `\nline`; with `\r` deleted first it gives `line` |
| CommandOutput.CorrectedOutputOfLine | naghelp/collect.py:652-657 | the corrected clean-up of `cmd\r\nline\r\n` is `line` |
| CommandOutput.ExpectOutputOfTranscript | naghelp/collect.py:652-657 | with `\r` deleted first, a terminal transcript of the echo, the output and the break before the prompt gives exactly the output |
| CommandOutput.ExpectOutputAfterEcho | naghelp/collect.py:654-657 | after the first echo, one `\n`, the output and one `\n`, the corrected clean-up gives the output |
| CommandOutput.Crlf | naghelp/collect.py:652 | a terminal's `\r\n` form of a text differs from the text only in `\r` characters |
| Validate.FilterResultAccepts | naghelp/collect.py:129-152 | a result is accepted exactly when the unexpected test and the expected test both pass, and then it is the filtered result; a filter answering `None` keeps the original |
| Validate.FilterResultReasons | naghelp/collect.py:115-152 | the unexpected pattern is checked first, and only on non-empty output; the error carries the key, the command and the filtered result; a missed default `\S` reports `empty result` |
| Validate.TimeoutSentinelRefused | naghelp/collect.py:129-152 | with the defaults (`\S` expected, `<timeout>` unexpected) the timeout sentinel is refused for finding `<timeout>` |
| Validate.BlankOutputRefused | naghelp/collect.py:129-152 | with the defaults, blank output is refused as an empty result |
| Validate.ShownResult | naghelp/collect.py:115-127 | an empty result is shown as `<empty result>`; any other result as lines ending with `\n...` |
| Validate.UnexpectedMessage | naghelp/collect.py:115-127 | the message starts with `Unexpected result`, the key and the command |
| Batch.Effective | naghelp/collect.py:660-680 | an argument of 0 takes the object's value; any other argument is used as given, for each of the three checks |
| Batch.Validated | naghelp/collect.py:129-152 | validation succeeds exactly when `_filter_result` does, with its result, and fails with its error |
| Batch.MRunStep | naghelp/collect.py:780-797 | one turn of a batch: an error of the command or a refused result ends it; otherwise it goes on from the next state with the result stored |
| Batch.MRunKeys | naghelp/collect.py:780-797 | a finished batch holds a result for every truthy key and no other key, except possibly the empty key when timeouts are stored under it |
| Batch.MRunAccepted | naghelp/collect.py:780-797 | every result a finished batch stores has passed validation |
| Batch.MRunTimeoutRejected | naghelp/collect.py:780-797 | with the defaults, a timed-out command makes the whole batch fail on the `<timeout>` sentinel |
| Batch.MRunSkipsEmptyKey | naghelp/collect.py:793-797 | a first pair with an empty key that only timed out is dropped when timeouts under empty keys are not stored |
| Batch.RunTimeoutRejected | naghelp/collect.py:715-727 | a timed-out command reaches validation as `<timeout>`, so with the defaults `run` refuses it |
| TelnetSession.NormalizePattern | naghelp/collect.py:897-905 | `None` gives the default compiled with `re.I`; a text gets `^` rewritten; a compiled pattern becomes a one-element list; a list is kept |
| TelnetSession.Telnet.constructor | naghelp/collect.py:840-857 | the patterns are normalised against their defaults; the session is neither inside `with` nor connected |
| TelnetSession.Telnet.Open | naghelp/collect.py:862-895 | the login conversation is `LoginOn`; `is_connected` is set exactly when it succeeds |
| TelnetSession.Telnet.Enter | naghelp/collect.py:907-909 | `__enter__` sets `in_with` and leaves `is_connected` alone |
| TelnetSession.Telnet.Close | naghelp/collect.py:915-919 | outside `with`, the connection is closed and `is_connected` cleared; inside `with` nothing changes |
| TelnetSession.Telnet.Exit | naghelp/collect.py:911-913 | `__exit__` closes the connection and leaves the session out of `with` and disconnected |
| TelnetSession.Telnet.RunCmd | naghelp/collect.py:921-938 | `_run_cmd` writes the command and a newline, expects the prompt, and cleans the buffer with `PromptOutput`; the alarm is a late command, while `socket.timeout` is an error that escapes |
| TelnetSession.Telnet.Run | naghelp/collect.py:940-1002 | `NotConnected` when not connected; otherwise one validated command, closed when `auto_close`; afterwards the session is connected exactly when it was and the close was not reached (inside `with`, no `auto_close`, or an error of the command itself, such as `socket.timeout`); only the alarm's `TimeoutError` becomes `<timeout>` |
| TelnetSession.Telnet.MRunLoop | naghelp/collect.py:1052-1063 | the batch loop is `MRunFrom`: only the alarm's `TimeoutError` gives the `<timeout>` sentinel, stored even under an empty key; `socket.timeout` ends the batch with that error |
| TelnetSession.Telnet.MRun | naghelp/collect.py:1004-1066 | `NotConnected` when not connected; otherwise the batch, closed when `auto_close`; afterwards the session is connected exactly when it was and the close was not reached (inside `with`, no `auto_close`, or a failed batch, such as one that met `socket.timeout`) |
| TelnetSession.VerdictCases | naghelp/collect.py:888-895 | login succeeds iff the matched index is a prompt pattern; an index past the prompt patterns is `Authentication error`; a negative one is `No regular prompt found.` |
| TelnetSession.LoginConversation | naghelp/collect.py:875-888 | login expects the login prompt and writes the user, then, when a password is given, expects the password prompt and writes it, then expects the prompt or the authentication error |
| TelnetSession.LoginChecksFirst | naghelp/collect.py:862-865 | an empty host or user fails with its message before anything is sent |
| TelnetSession.SocketTimeoutEscapes | naghelp/collect.py:993-1000 | `socket.timeout` is not caught: `_run_cmd` fails with it after writing the command and waiting once, `run` and `mrun` return that error without closing, and no `<timeout>` sentinel is validated |
| TelnetSession.EmptyKeyTimeoutRejected | naghelp/collect.py:1060-1063 | with the defaults, a timeout under an empty key is still stored and so refused |
| TelnetSession.CmdOutputOfTranscript | naghelp/collect.py:929-938 | a buffer of text, the echoed command, the output and the prompt line gives exactly the output |
| SshSession.ReadToPrompt | naghelp/collect.py:1163-1167 | the text read up to and including the prompt when the prompt is seen, and nothing (a timeout) otherwise; the exec answers are untouched |
| SshSession.RunnerIsCmdOn | naghelp/collect.py:1169-1189 | the batch runner of `Ssh` is its `_run_cmd` |
| SshSession.Ssh.constructor | naghelp/collect.py:1114-1128 | the configuration as given, with an empty command record; the session is neither inside `with` nor connected |
| SshSession.Ssh.ReadToPromptM | naghelp/collect.py:1163-1167 | the reading loop is `ReadToPrompt` |
| SshSession.Ssh.Open | naghelp/collect.py:1129-1147 | `is_connected` is set only when the connection succeeds and, in shell mode, the first prompt is read |
| SshSession.Ssh.Enter | naghelp/collect.py:1149-1151 | `__enter__` sets `in_with` and changes nothing else |
| SshSession.Ssh.Close | naghelp/collect.py:1157-1161 | outside `with`, the client is closed and `is_connected` cleared; inside `with` nothing changes |
| SshSession.Ssh.Exit | naghelp/collect.py:1153-1155 | `__exit__` closes the client and leaves the session out of `with` and disconnected |
| SshSession.Ssh.RunCmd | naghelp/collect.py:1169-1189 | `_run_cmd`: in exec mode, the next prepared answer, plus stderr when asked; in shell mode, one line sent, then the buffer up to the prompt cleaned with `PromptOutput` |
| SshSession.Ssh.Run | naghelp/collect.py:1191-1244 | `NotConnected` when not connected; otherwise one validated command, closed when `auto_close`; afterwards the session is connected exactly when it was and the close was not reached (inside `with`, no `auto_close`, or an error of the command itself) |
| SshSession.Ssh.ScriptLoop | naghelp/collect.py:1258-1262 | the script loop is `ScriptFrom`: blank lines skipped, the others stripped when asked, formatted and run in order |
| SshSession.Ssh.RunScript | naghelp/collect.py:1246-1269 | `NotConnected` when not connected; otherwise the script's outputs concatenated, validated against the last line run, then closed when `auto_close`; afterwards the session is connected exactly when it was and the close was not reached (inside `with`, no `auto_close`, or an error escaping the script) |
| SshSession.Ssh.MRunLoop | naghelp/collect.py:1341-1352 | the batch loop is `MRunFrom`, which drops timeouts under an empty key |
| SshSession.Ssh.MRun | naghelp/collect.py:1287-1355 | `NotConnected` when not connected; otherwise the batch, closed when `auto_close`; afterwards the session is connected exactly when it was and the close was not reached (inside `with`, no `auto_close`, or a failed batch) |
| SshSession.ExecAnswer | naghelp/collect.py:1170-1178 | in exec mode an answer gives the command's output, and the command is recorded |
| SshSession.ScriptStep | naghelp/collect.py:1257-1262 | one turn of the script loop: a blank line is skipped; a command with no output ends the script; an output is added before the next line |
| SshSession.ScriptExecStep | naghelp/collect.py:1257-1262 | a non-blank line with an answer adds that answer's output and uses the answer up |
| SshSession.ScriptOutput | naghelp/collect.py:1257-1262 | with an answer for every line, the script's output is the concatenation of the outputs of its non-blank lines, one answer used per such line |
| SshSession.ScriptRunsNonBlankLines | naghelp/collect.py:1257-1262 | with an answer for every line, the non-blank lines (stripped when asked, then formatted) are each passed to `exec_command` once, in order |
| SshSession.EmptyScriptUnbound | naghelp/collect.py:1257-1267 | a script with no line never binds `cmd`, so `run_script` fails after closing |
| SshSession.ScriptStopsAtTimeout | naghelp/collect.py:1257-1267 | a timeout stops the script: the remaining lines are not run and the output is the sentinel, validated against the line that timed out |
| SshSession.EmptyPromptHasNoChannel | naghelp/collect.py:1140-1147 | an empty prompt pattern opens no shell at login yet is not `None` for `_run_cmd`: the session connects and fails on its first command |
| SshSession.LoginChecksFirst | naghelp/collect.py:1129-1132 | an empty host or user fails with its message before anything is done |
| SshSession.CmdOutputOfTranscript | naghelp/collect.py:1179-1189 | in shell mode, a command read up to the prompt gives the text between the echoed command line and the prompt line |
| LocalCommand.Prefixed | naghelp/collect.py:278-280 | a list command is prefixed with `timeout Ns` unless it already starts with `timeout` |
| LocalCommand.PrefixedIdempotent | naghelp/collect.py:278-280 | prefixing twice adds nothing, whatever the second timeout |
| LocalCommand.Formatted | naghelp/collect.py:272-278 | the command is formatted with the context only when there is one |
| LocalCommand.Prepare | naghelp/collect.py:268-281 | building the process arguments: a text runs through the shell, a list is formatted and then prefixed |
| LocalCommand.ReusedListKeepsFirstTimeout | naghelp/collect.py:278-280 | rerunning the list a call without context modified in place launches the same list: the first prefix stays and the second timeout is not used |
| LocalCommand.RunShExOutcome | naghelp/collect.py:233-294 | a finished process gives its own stderr and return code, and stdout as `_filter_result` leaves it; stderr is refused only when asked |
| LocalCommand.RunSh | naghelp/collect.py:170-231 | `runsh`: the lines of the validated stdout; stderr is never refused |
| LocalCommand.MRunShExKeys | naghelp/collect.py:348-400 | a finished `mrunshex` has written `k`, `k_stderr` and `k_rcode` for every pair (the empty key included) and nothing else |
| LocalCommand.MRunShKeys | naghelp/collect.py:296-346 | a finished `mrunsh` has a value for every key of the pairs and no other |
| LocalCommand.MRunShExEmptyCommand | naghelp/collect.py:348-400 | an empty command makes the batch fail unless an earlier pair already did |
| LocalCommand.MRunShEx | naghelp/collect.py:348-400 | the loop of `mrunshex` is the batch function `MRunShExFrom` |
| LocalCommand.MRunSh | naghelp/collect.py:296-346 | the loop of `mrunsh` is the batch function `MRunShFrom` |
| LocalCommand.ParseAll | naghelp/collect.py:85-86 | every piece read as an integer, or the `ValueError` of a piece that is not one |
| LocalCommand.PortsRoundTrip | naghelp/collect.py:85-86 | ports joined with `,` read back as the same ports |
| LocalCommand.FirstInvalidSpec | naghelp/collect.py:85-95 | `None` exactly when every port is reachable; otherwise an unreachable port of the list, every port before it being reachable |
| LocalCommand.SearchInvalidPort | naghelp/collect.py:66-95 | `search_invalid_port`: the first unreachable port, `None` when all are reachable, or the error of a piece that is no integer |
| LocalCommand.FirstInvalidLoop | naghelp/collect.py:87-95 | the port loop returns the first unreachable port |
| SnmpCollect.EffectiveVersion | naghelp/collect.py:1493-1494 | the version given, or else 3 with a user and 2 without |
| SnmpCollect.SelectCredentialsCases | naghelp/collect.py:1496-1519 | version 1 gets community model 0; 2 and `2c` get model 1; 3 needs a user, and an empty password is `None`; any other version is refused; the target has a third of the timeout and 2 retries |
| SnmpCollect.PrivacyFollowsAuthProtocol | naghelp/collect.py:1505 | as written, AES privacy asked with SHA authentication is not turned on (see Findings) |
| SnmpCollect.PrivacyFollowsPrivProtocol | naghelp/collect.py:1503-1506 | as intended, AES privacy follows the privacy protocol and SHA follows the authentication protocol |
| SnmpCollect.ParseRange | naghelp/collect.py:1744-1756 | a range must hold exactly one `-`, else `CollectError`; begin's prefix and integer, end's integer and suffix |
| SnmpCollect.RangeOids | naghelp/collect.py:1752-1754 | one OID per integer, in increasing order |
| SnmpCollect.OidRangeContents | naghelp/collect.py:1742-1757 | a range holds `last - first + 1` OIDs, none when `first > last`; the k-th is begin's prefix, `first + k` and end's suffix, and reads back as those parts |
| SnmpCollect.RangeLoop | naghelp/collect.py:1752-1754 | the loop appends the OIDs of `first .. last` in order |
| SnmpCollect.GetOidRange | naghelp/collect.py:1742-1757 | `get_oid_range`: the parsing error, or the OIDs of the range |
| SnmpCollect.Assign | naghelp/collect.py:1791-1793 | every expanded OID maps to the variable; every other entry is kept |
| SnmpCollect.RequestCovers | naghelp/collect.py:1789-1797 | every OID asked for answers some variable |
| SnmpCollect.AddValueFacts | naghelp/collect.py:1808-1817 | storing one value appends it to its own variable only, and keeps groups of two values or more as lists |
| SnmpCollect.ScalarIffOne | naghelp/collect.py:1808-1817 | an entry is a scalar exactly when it holds one value |
| SnmpCollect.GroupCollects | naghelp/collect.py:1808-1817 | after grouping, a variable with answers holds all its values in answer order, as a scalar iff there is one; variables without answers are unchanged |
| SnmpCollect.BuildRequest | naghelp/collect.py:1789-1797 | the request loop builds the OIDs asked for and the variable each one answers |
| SnmpCollect.GroupBinds | naghelp/collect.py:1808-1817 | the grouping loop is the grouping function |
| SnmpCollect.MGet | naghelp/collect.py:1759-1818 | `mget`: the request, then the grouping of the reply |
| SnmpCollect.SetDefault | naghelp/collect.py:1698 | `setdefault(row, {}).setdefault(col, val)` adds a cell only where there was none |
| SnmpCollect.TabulateCells | naghelp/collect.py:1694-1698 | a tabulation has a cell exactly where it had one or where some walked OID points |
| SnmpCollect.TabulateKeeps | naghelp/collect.py:1694-1698 | a cell the table already had keeps its value |
| SnmpCollect.TabulateFirstWins | naghelp/collect.py:1694-1698 | a new cell holds the value of the first walked OID pointing at it |
| SnmpCollect.DWalk | naghelp/collect.py:1691-1699 | `dwalk`'s loop is the tabulation |
| SnmpCollect.SortedIntsFacts | naghelp/collect.py:1711 | `sorted` lists each row id once, in increasing order |
| SnmpCollect.TableRowIds | naghelp/collect.py:1710-1718 | a `twalk` table holds one row per row id, in increasing order |
| SnmpCollect.SortedRow | naghelp/collect.py:1710-1712 | without `cols`, a row is its id followed by its cells in increasing column order |
| SnmpCollect.ListedRow | naghelp/collect.py:1713-1715 | with a list of columns, a row holds one cell per wanted column, `NoAttr` where it has none |
| SnmpCollect.NamedRow | naghelp/collect.py:1716-1718 | with a dictionary, a row holds the wanted field names and `_row`, each with the column's value or `NoAttr` |
| SnmpCollect.RowsLoop | naghelp/collect.py:1711-1718 | the row loop builds one row per row id, in the given order |
| SnmpCollect.TWalk | naghelp/collect.py:1701-1719 | `twalk`: the tabulation of `dwalk`, then the rows |
| SnmpCollect.TablesFor | naghelp/collect.py:1723 | the tables of every call, or the first error |
| SnmpCollect.TableRowKinds | naghelp/collect.py:1710-1718 | a list-like specification gives list rows, a dictionary gives dictionary rows |
| SnmpCollect.MergeListsCells | naghelp/collect.py:1727-1731 | the list merge has a row per row id met, made of the cells of every row with that id, in order |
| SnmpCollect.MergeDictsFields | naghelp/collect.py:1736-1739 | the dictionary merge has a row per row id met, with a field wherever some merged row has one |
| SnmpCollect.MergeDictsKeeps | naghelp/collect.py:1736-1739 | a field that no later row sets keeps its value |
| SnmpCollect.MergeDictsLastWins | naghelp/collect.py:1739 | a merged field holds the value of the last row setting it |
| SnmpCollect.JoinedRowIds | naghelp/collect.py:1732 | `jwalk`'s rows have increasing, distinct row ids, one for every row id of every table |
| SnmpCollect.JoinedListed | naghelp/collect.py:1724-1732 | with lists, the row for an id is the id followed by every table's cells for it, table after table |
| SnmpCollect.JoinedNamed | naghelp/collect.py:1733-1740 | with dictionaries, the row for an id holds the merged fields of every table's row with that id |
| SnmpCollect.TablesForPrefixErr | naghelp/collect.py:1723 | an error of an earlier `twalk` is the error of the whole list |
| SnmpCollect.JWalk | naghelp/collect.py:1721-1740 | `jwalk`: the tables, the specification check, then the merge |
| SnmpCollect.MergeListRows | naghelp/collect.py:1727-1731 | the list merge loop is the list merge function |
| SnmpCollect.MergeDictRows | naghelp/collect.py:1736-1739 | the dictionary merge loop is the dictionary merge function |
| SnmpCollect.AllListLike | naghelp/collect.py:1725-1726 | the assertion holds exactly when every specification is a list, a tuple or `None` |
| SnmpCollect.AllDictLike | naghelp/collect.py:1734-1735 | the assertion holds exactly when every specification is a dictionary |
| SnmpCollect.JoinTables | naghelp/collect.py:1724-1740 | the loops after the tables are made give the joined rows, or the assertion error |
| Response.ExitCode | naghelp/response.py:59-73 | OK exits with 0, WARNING with 1, CRITICAL with 2 and UNKNOWN with 3 |
| Response.ExitCodeInjective | naghelp/response.py:59-73 | distinct levels have distinct exit codes |
| Response.NextLevel | naghelp/response.py:154-157 | the test of `set_level` is exactly the larger level in the order unset < UNKNOWN < OK < WARNING < CRITICAL |
| Response.NextLevelCommutes | naghelp/response.py:154-157 | setting two levels in either order gives the same level |
| Response.NextLevelIdempotent | naghelp/response.py:154-157 | setting a level twice is setting it once |
| Response.LevelsIsMax | naghelp/response.py:138-157 | after a series of `set_level` calls, the level is the worst of the levels set and the one before |
| Response.LevelsOrderFree | naghelp/response.py:138-157 | the final level depends neither on the order nor on the repetition of the levels set |
| Response.CriticalStays | naghelp/response.py:154-157 | once CRITICAL, the level stays CRITICAL |
| Response.CurrentLevel | naghelp/response.py:159-178 | `get_current_level` is the default level exactly when no level is set |
| Response.Append | naghelp/response.py:329 | appending to one level's list adds one entry at its end and leaves the other lists alone |
| Response.Extend | naghelp/response.py:451-462 | extending one level's list appends the entries in order and leaves the other lists alone |
| Response.ExtendExtend | naghelp/response.py:386-462 | extending twice is extending by both parts |
| Response.NonEmpty | naghelp/response.py:451-462 | the non-empty messages, in order |
| Response.Formatted | naghelp/response.py:451-462 | one level message per message, formatted with `_len` |
| Response.Grown | naghelp/response.py:451-462 | only the list of the level changes, by the entries added |
| Response.ListFromStep | naghelp/response.py:451-462 | one turn of the `add_list` loop on a non-empty message adds the header first when it is the first one |
| Response.ListFromCons | naghelp/response.py:451-462 | a non-empty first message followed by the rest has the effect of the header, that message and the rest |
| Response.AddListEffect | naghelp/response.py:451-462 | when some message is non-empty, the level's list gets the header, the non-empty messages in order and the footer, and the level is set; when all are empty nothing changes; no other field changes |
| Response.AddListNotALevel | naghelp/response.py:451-462 | with something other than a level, `add_list` raises exactly when a message would have been added, and changes nothing |
| Response.MListMissingList | naghelp/response.py:525-540 | a level given without a list adds nothing |
| Response.NonEmptyItems | naghelp/response.py:593-596 | the pairs whose message is not empty |
| Response.ManyIgnoresEmpty | naghelp/response.py:593-596 | empty messages make no difference to `add_many` |
| Response.ManyLevel | naghelp/response.py:593-596 | when every pair holds a level, `add_many` raises nothing and the level becomes the worst of the non-empty messages' levels |
| Response.AddIfEffect | naghelp/response.py:660-671 | a true test adds the header, the message (the test's text when none is given) and the footer, and sets the level; a false test changes nothing |
| Response.ElifFirstTrue | naghelp/response.py:731-741 | only the first true test's message is added; later items are not looked at |
| Response.ElifNoneTrue | naghelp/response.py:731-741 | with no true test nothing is added |
| ResponseOutput.CenterShape | naghelp/response.py:949-970 | a centred text has as many fill characters on the left as on the right, or one more on the right |
| ResponseOutput.SectionFormatShape | naghelp/response.py:949-970 | a section title of up to 72 characters is 80 columns wide and holds `[ title ]` between runs of `=` that differ by at most one |
| ResponseOutput.SubsectionFormatShape | naghelp/response.py:972-993 | a subsection title starts with `----( title )` and is filled with `-` up to 80 columns |
| ResponseOutput.Messages | naghelp/response.py:938-940 | the level messages, comments left out, in order |
| ResponseOutput.MessagesMember | naghelp/response.py:938-940 | a text is a message exactly when some entry is that message |
| ResponseOutput.SynopsisNoMessage | naghelp/response.py:941-942 | with no message (comments do not count) the synopsis is the name of the level sent |
| ResponseOutput.SynopsisOnlyOk | naghelp/response.py:943-944 | with OK messages only, the synopsis is `OK` |
| ResponseOutput.SynopsisSingleProblem | naghelp/response.py:945-946 | with exactly one WARNING, CRITICAL or UNKNOWN message, the synopsis is that message |
| ResponseOutput.SynopsisStatus | naghelp/response.py:947 | with two problems or more, the synopsis is the status line |
| ResponseOutput.StatusPartInjective | naghelp/response.py:947 | the parts of the status line name distinct levels |
| ResponseOutput.StatusPartsMember | naghelp/response.py:947 | the status line has a part for a level exactly when that level's list is not empty, in the order CRITICAL, WARNING, UNKNOWN, OK |
| ResponseOutput.StatusPartsExample | naghelp/response.py:928-936 | one CRITICAL and one WARNING message give `STATUS : CRITICAL:1, WARNING:1` |
| ResponseOutput.BlocksSnoc | naghelp/response.py:1024-1031 | one more level at the end adds its section at the end |
| ResponseOutput.RenderLevelsOrder | naghelp/response.py:1022-1036 | the rendering is the STATUS title followed by the sections of the non-empty levels in the order CRITICAL, WARNING, UNKNOWN, OK |
| ResponseOutput.RenderLevelsEmpty | naghelp/response.py:1022-1036 | the rendering is empty exactly when every level list is empty |
| ResponseOutput.EscapeMsgSpec | naghelp/response.py:1038-1053 | an escaped message holds no `|`, and only `|` characters were changed, each to `!` |
| ResponseOutput.OutputFails | naghelp/response.py:1101-1104 | `get_output` fails exactly when the synopsis is empty |
| ResponseOutput.OutputFirstLine | naghelp/response.py:1101-1112 | the first line is the synopsis's first line cut at 75 characters with `...` when cut or followed by more lines, escaped, then the first perf item; a longer line continues on a `... ` line |
| ResponseOutput.OutputPipes | naghelp/response.py:1101-1128 | the output holds one `|` before the first perf item and one before the others, and no other; the other perf items end the output |
| ResponseOutput.BodyLimit | naghelp/response.py:1113-1124 | with a limit, the body keeps at most that many characters, then the truncation notice when it cut, then the end messages; a body within the limit is not cut |
| ResponseOutput.BodyNoLimit | naghelp/response.py:1113-1124 | without a limit, or with a limit of 0, the body is never cut |
| ResponseOutput.SendOn | naghelp/response.py:1137-1170 | a message given with something other than a level raises exactly when it is not empty; after success the level is set |
| ResponseOutput.SendEffect | naghelp/response.py:1137-1170 | after `send`, a level given has gone through `set_level`; without one, the level is the one set before, else the default level, else UNKNOWN; a non-empty synopsis replaces the old one; a non-empty message is the last entry of its level; the sublevel given replaces the old one; nothing else changes |
| ResponseOutput.SendExitCode | naghelp/response.py:1137-1170 | the exit code is that of the level the response ends with |
| ResponseObject.PluginResponse.constructor | naghelp/response.py:127-136 | a fresh response has no level, the given default, sublevel 0 and empty lists |
| ResponseObject.PluginResponse.SetLevel | naghelp/response.py:138-157 | `set_level` moves the level by `NextLevel`, or raises on something other than a level without changing anything |
| ResponseObject.PluginResponse.SetSublevel | naghelp/response.py:180-206 | `set_sublevel` sets the sublevel and nothing else |
| ResponseObject.PluginResponse.Add | naghelp/response.py:279-332 | `add` appends the message to its level's list and sets the level; anything other than a level raises and changes nothing |
| ResponseObject.PluginResponse.AddComment | naghelp/response.py:334-371 | `add_comment` appends a comment without touching the level |
| ResponseObject.PluginResponse.AddList | naghelp/response.py:373-462 | the loop of `add_list` is `AddListOn` |
| ResponseObject.PluginResponse.AddMList | naghelp/response.py:464-540 | `add_mlist` calls `add_list` for each level with its list, header and footer |
| ResponseObject.PluginResponse.AddMany | naghelp/response.py:541-596 | the loop of `add_many` is `AddManyOn` |
| ResponseObject.PluginResponse.AddIf | naghelp/response.py:598-671 | `add_if` is `AddIfOn` |
| ResponseObject.PluginResponse.AddElif | naghelp/response.py:673-741 | the loop of `add_elif` is `AddElifOn` |
| ResponseObject.PluginResponse.AddBegin | naghelp/response.py:238-277 | `add_begin` appends to the begin section only |
| ResponseObject.PluginResponse.AddMore | naghelp/response.py:743-790 | `add_more` appends a non-empty message to the more section only |
| ResponseObject.PluginResponse.AddEnd | naghelp/response.py:792-840 | `add_end` appends to the end section only |
| ResponseObject.PluginResponse.AddPerfData | naghelp/response.py:842-868 | `add_perf_data` appends to the perf items only |
| ResponseObject.PluginResponse.SetSynopsis | naghelp/response.py:870-915 | `set_synopsis` sets the synopsis only |
| ResponseObject.PluginResponse.LevelMsgsRender | naghelp/response.py:995-1036 | the loop gives the rendering of `RenderLevels` |
| ResponseObject.PluginResponse.RenderSections | naghelp/response.py:1024-1031 | the loop appends the sections of the listed levels in order, and tells whether one was written |
| ResponseObject.PluginResponse.AppendSection | naghelp/response.py:1025-1031 | one turn appends the level's section if the level has entries |
| ResponseObject.PluginResponse.GetOutput | naghelp/response.py:1055-1128 | `get_output` is `Output` of the state, and fails exactly when the synopsis is empty |
| ResponseObject.PluginResponse.OutputHead | naghelp/response.py:1105-1112 | the first line and the continuation line of a long synopsis line |
| ResponseObject.PluginResponse.BodyText | naghelp/response.py:1113-1124 | the body cut at the limit with the notice, then the end messages |
| ResponseObject.PluginResponse.FullBodyText | naghelp/response.py:1113-1118 | the begin messages, the level sections and the more section, before any cut |
| ResponseObject.PluginResponse.Send | naghelp/response.py:1137-1170 | `send` changes the response as `SendOn` says and emits the text and exit code `SendOutput` says |
| Perf.IsValidValue | naghelp/perf.py:122-124 | `None`, or a non-empty text of `[-0-9.]` characters, optionally followed by one `\n` |
| Perf.IntIsValidValue | naghelp/perf.py:122-124 | the text of any integer is a valid value |
| Perf.UomCaseInsensitive | naghelp/perf.py:93-98 | the unit check ignores case |
| Perf.UomShort | naghelp/perf.py:93-98 | every accepted unit is at most two characters long |
| Perf.ValueCheck | naghelp/perf.py:57-64 | `None` fails with `value must not be None`; an invalid text fails with the class message; anything else passes |
| Perf.UomCheck | naghelp/perf.py:93-98 | a unit fails exactly when it is given and, lower-cased, not one of the nine units |
| Perf.BoundCheck | naghelp/perf.py:70-86 | a bound fails exactly when it is not a valid value |
| Perf.CreateError | naghelp/perf.py:44-51 | `PerfData(...)` fails with the error of the first setter that fails, in the order value, uom, minval, maxval; it succeeds exactly when all pass |
| Perf.DoubleQuotes | naghelp/perf.py:130 | doubling quotes never shortens a text and keeps every other character |
| Perf.UndoubleDouble | naghelp/perf.py:130 | undoubling a doubled text gives the text back |
| Perf.QuoteIfNeeded | naghelp/perf.py:126-132 | a label is changed exactly when it holds `=`, a space or `'`, and is then enclosed in `'`, its own quotes doubled |
| Perf.QuoteRoundTrip | naghelp/perf.py:126-132 | a label can be read back from its quoted form |
| Perf.RenderSplits | naghelp/perf.py:104-120 | with no `;` in any field, the rendered text split at `;` is: the head `label=value<uom>`, then warn, crit, min and max, with a missing field empty |
| Perf.RenderExample | naghelp/perf.py:37-42 | the item of the class docstring renders as `filesystem_/=55%;95;98;0;100` |
| Perf.PerfData.constructor | naghelp/perf.py:44-51 | an item whose checks pass has exactly the given fields |
| Perf.PerfData.SetValue | naghelp/perf.py:57-64 | the setter fails exactly as `ValueCheck` says, with its message and nothing changed; otherwise only `value` changes, and validity is kept |
| Perf.PerfData.SetMinval | naghelp/perf.py:70-75 | the same for `minval` |
| Perf.PerfData.SetMaxval | naghelp/perf.py:81-86 | the same for `maxval` |
| Perf.PerfData.SetUom | naghelp/perf.py:92-98 | the same for `uom` |
| Perf.PerfData.SetName | naghelp/perf.py:45 | the label is set without a check |
| Perf.PerfData.SetWarn | naghelp/perf.py:48 | the warning threshold is set without a check |
| Perf.PerfData.SetCrit | naghelp/perf.py:49 | the critical threshold is set without a check |
| Perf.NewPerfData | naghelp/perf.py:44-51 | construction fails with `CreateError` when there is one; otherwise a fresh item with the given fields |
| HostData.Or | naghelp/host.py:102-105 | `a or b` is truthy exactly when one of them is, and is one of them |
| HostData.Lookup | naghelp/host.py:266-269 | an environment lookup gives the value of the last pair with that name, or nothing when there is none |
| HostData.PrefixParamsSpec | naghelp/host.py:265 | every `NAGIOS__X` variable becomes key `x` lower-cased; of two with the same key, the later one wins |
| HostData.FixedParamsSpec | naghelp/host.py:266-269 | a renamed variable that is set overrides the key; other keys keep their value |
| HostData.LastSetDistinct | naghelp/host.py:237-262 | with distinct target names, the variable renamed to a name is the one looked up; a name nothing is renamed to is not set |
| HostData.EnvParamsSpec | naghelp/host.py:237-270 | each of the five `NAGIOS_HOST*` variables that is set gives its key (`name`, `alias`, `ip`, `groups`, `group`); any other key comes from the `NAGIOS__` variables |
| HostData.ParamsFromEnv | naghelp/host.py:264-270 | the two loops of `_get_params_from_env` compute `EnvParams` |
| HostData.EnvValues | naghelp/host.py:264-270 | the environment parameters as host values, with the same keys |
| HostData.CmdParams | naghelp/host.py:328-329 | the options whose value is not `None`, with their values |
| HostData.InitialName | naghelp/host.py:102-105 | the name is the first truthy of the option name, the environment name, the option ip and the environment ip, and else the last of them |
| HostData.Merged | naghelp/host.py:234-235 | `_merge` copies the entries that are not `None` or `NoAttr` and leaves all other keys untouched |
| HostData.LoadPrecedence | naghelp/host.py:107-116 | after `load_data`, an entry comes from the options if they set it, else from the environment, else from the database, else it is the old one |
| HostData.PersistentFilename | naghelp/host.py:339-345 | the file name is `/tmp/naghelp/`, the host name's text and `_persistent_data.json` |
| HostData.Host.constructor | naghelp/host.py:97-105 | a new host's parameters come from the environment and the options, none from the database, and its only entry is the name |
| HostData.Host.Get | naghelp/host.py:205-215 | an entry's value when it is present, else the default |
| HostData.Host.Set | naghelp/host.py:225-226 | `set` writes one entry and nothing else |
| HostData.Host.SetAttr | naghelp/host.py:208-212 | a name not starting with `_` is stored as an entry; any other name leaves the entries as they are |
| HostData.Host.Delete | naghelp/host.py:228-232 | `delete` returns true and removes the entry exactly when it is present |
| HostData.Host.Merge | naghelp/host.py:234-235 | `_merge` gives `Merged` of the old entries |
| HostData.Host.LoadData | naghelp/host.py:107-116 | the database, then the environment, then the options are merged in that order |
| HostData.Host.PersistentFile | naghelp/host.py:339-345 | the persistent file of the host's name |
| Gauge.NumberToken | naghelp/mixins.py:117-118 | the match `find_pattern` returns for `-?[\d,\.]+`: empty exactly when the text has no digit, comma or dot; otherwise it occurs at the leftmost index where a match can start, takes the `-` there when present, and its run of `[\d,\.]` cannot be extended |
| Gauge.NumberTokenSkip | naghelp/mixins.py:117-118 | leading characters that start no number are skipped |
| Gauge.TokenIntIsInt | naghelp/mixins.py:119-122 | Python's `int()` reads a comma-free token as its reading does |
| Gauge.ReadingOf | naghelp/mixins.py:115-124 | an integer is read as itself and `None`/`NoAttr` give no test; a text gives no test exactly when its token (with `,` read as `.`) is empty, a `Fraction` of that text when it holds a `.`, and otherwise the whole number `int()` reads from the token |
| Gauge.FirstHit | naghelp/mixins.py:124-132 | no bound is reported exactly when none is reached; otherwise the first reached in the order `crit_min`, `warn_min`, `crit_max`, `warn_max`, with `<=` for minima and `>=` for maxima |
| Gauge.ThresholdBands | naghelp/mixins.py:124-132 | with ordered thresholds, a value is CRITICAL outside the critical range, WARNING outside the warning range only, and raises nothing inside it |
| Gauge.ThresholdOnEffect | naghelp/mixins.py:115-132 | the gauge line always goes to the more section first; at most one level message follows, only for a number reaching a bound, at that bound's level; nothing else changes |
| Gauge.ThresholdExamples | naghelp/mixins.py:81-113 | the docstring examples: 90 is a WARNING above 70, -10 a CRITICAL below 10, 110 a CRITICAL above 100 |
| Gauge.TextLessAsymmetric | naghelp/mixins.py:206-214 | text order is never both ways |
| Gauge.PyLessStrict | naghelp/mixins.py:206-231 | Python 2's `<` on host values is a strict order |
| Gauge.FlagsRelated | naghelp/mixins.py:189-231 | a value below or above the reference is also a changed one; for two integers a changed value is below or above |
| Gauge.EtalonOnEffect | naghelp/mixins.py:189-231 | the gauge line goes to the more section; a level message is added exactly when a reference exists and the check flags the value; the reference becomes the value exactly when the check keeps it; no other host entry changes |
| Gauge.EtalonSettles | naghelp/mixins.py:189-197 | after a value is kept as the reference, checking it again reports nothing |
| Gauge.ListEtalonNamesDistinct | naghelp/mixins.py:134-137 | distinct positions of a list keep their references under distinct names |
| Gauge.GaugeMixin.Threshold | naghelp/mixins.py:58-132 | `gauge_response_threshold` changes the response as `ThresholdOn` says |
| Gauge.GaugeMixin.ReportThreshold | naghelp/mixins.py:124-132 | the first bound reached adds its message at its level; otherwise nothing changes |
| Gauge.GaugeMixin.ThresholdList | naghelp/mixins.py:38-56 | the list variant checks each pair in order, with id `id + index` |
| Gauge.GaugeMixin.EtalonCheck | naghelp/mixins.py:139-231 | an etalon check changes the response and the host entries as `EtalonOn` says, and no other host field |
| Gauge.GaugeMixin.ReportEtalon | naghelp/mixins.py:193-194 | a message at the level exactly when a reference exists and the value departs from it as the kind of check says (changed, below or above, as at lines 210-211 and 227-228 for the other kinds); otherwise nothing changes |
| Gauge.GaugeMixin.EtalonList | naghelp/mixins.py:134-219 | the list variants check each pair in order, with id `id + index` |
| Plugin.Title | naghelp/plugin.py:758 | `k.title()`: the first letter of each run of letters in upper case, the other letters in lower case, and the rest kept |
| Plugin.TitleIdempotent | naghelp/plugin.py:758 | a title stays as it is |
| Plugin.ParamsDesc | naghelp/plugin.py:749-758 | one entry for each non-empty name of `cmd_params` or `forced_params`, described by the table, else by the name's title |
| Plugin.ParamsDescExample | naghelp/plugin.py:749-758 | a name missing from the table is described by its title, and the empty name is left out |
| Plugin.Dedup | naghelp/plugin.py:1074-1075 | the same names, each once |
| Plugin.RequiredFields | naghelp/plugin.py:1070-1075 | `required_params`, or `cmd_params` when it is `None`, an empty text being no field, plus `ip` when `name` is absent; so `name` or `ip` is always required |
| Plugin.DefaultRequiresIp | naghelp/plugin.py:1070-1075 | a plugin that declares no parameter requires only `ip` |
| Plugin.FirstMissing | naghelp/plugin.py:1076-1079 | no field is reported exactly when every field has a truthy host value; otherwise the first field without one |
| Plugin.FirstMissingAt | naghelp/plugin.py:1076-1079 | the field the loop stops at is the first one missing |
| Plugin.FastResponseExit | naghelp/plugin.py:813-831 | a fast response with a synopsis goes out with the exit code of its level and with its sublevel |
| Plugin.RequiredFieldsExit | naghelp/plugin.py:1077-1079 | a failed required-field check exits with code 2 (CRITICAL) and sublevel 3 |
| Plugin.UdpPorts | naghelp/plugin.py:908-916 | the host's port when it has one and no tcp port is declared, else `udp_ports` |
| Plugin.TcpPorts | naghelp/plugin.py:918-928 | the host's port when it has one and no udp port is declared; else the service port of a truthy protocol named in `cmd_params`, or `service/proto not found`; else `tcp_ports` |
| Plugin.PortGoesToOneProtocol | naghelp/plugin.py:908-928 | with a port on the host and exactly one protocol declaring none, the udp side takes the port exactly when tcp declares none |
| Plugin.MentionsText | naghelp/plugin.py:927 | `'protocol' in cmd_params` is a substring test when `cmd_params` is a text |
| Plugin.LoggerLevel | naghelp/plugin.py:295-301 | DEBUG exactly with `-d`; INFO exactly with `-v` and no `-d`; ERROR otherwise |
| Plugin.ResolveName | naghelp/plugin.py:168-172 | a name without a dot goes to `get_plugin`, which looks it up lower-cased; a dotted name splits at its last dot into a module and a dot-free class name that join back to the name |
| Plugin.ActivePlugin.constructor | naghelp/plugin.py:577-674 | the plugin's response, host and parameter attributes as given |
| Plugin.ActivePlugin.FastResponse | naghelp/plugin.py:813-831 | `fast_response` sets the level and sublevel, the synopsis, a begin message and the plugin information, then sends |
| Plugin.ActivePlugin.MissingField | naghelp/plugin.py:1076-1079 | the loop over the required fields returns the first one without a truthy host value, and none when every one has such a value |
| Plugin.ActivePlugin.CheckHostRequiredFields | naghelp/plugin.py:1063-1079 | nothing is sent and the response is unchanged exactly when every required field has a truthy value; otherwise a CRITICAL fast response with sublevel 3 names the first missing field and lists the required ones |

## Left out

- Sockets, subprocesses, pexpect, telnetlib, paramiko, pysnmp, `SIGALRM` timeouts, `time.sleep` and logging are not modelled. Remote ends are replaced by the oracles above.
- Regular expressions are abstract predicates. The exceptions are `\S`, literal patterns such as `<timeout>`, the echo strip `^.*?cmd\n*` (with the command read as literal text), `[-0-9.]+$` and `-?[\d,\.]+`.
- `str.format(**context)` is a function given as a parameter.
- ExpectSession.Expect.RunCmd: a command containing regular-expression metacharacters is matched as literal text.
- ExpectSteps.ProgramSteps: a bare step `(None, answer)` cannot be written, since a bare step's pattern is a text. The source does not normalise it either (naghelp/collect.py:567): the pair is taken as two alternatives and `e[0]` on `None` raises `TypeError` (naghelp/collect.py:579). Steps are taken as tuples: a step given as a Python list is extended in place by `expects += next_expects` (naghelp/collect.py:578), so on later passes its lookahead alternatives pile up and count as its own; the model does not capture that aliasing.
- Validate.Active: patterns are given by their text, so a compiled pattern whose text is `''` (truthy in Python, so still searched) is taken as no pattern.
- LocalCommand.ListRepr: Python 2's `repr` of an item holding `'`, a backslash or an unprintable character (double quotes, escapes) is not modelled; every item is put in single quotes.
- SshSession.ReadToPrompt: an end of stream is read as a timeout. The source would loop forever on `recv` returning `''`.
- SshSession.Ssh.Open: the login timeout message is approximate (`timed out`).
- SshSession.Ssh.RunCmd: an exhausted list of prepared exec answers is read as a timeout.
- Sftp, Http, `is_ping_ok`, `Snmp.get`, `walk`, `mwalk` and `exists` are not modelled, nor `to_native_type` and `normalize_oid`. The walked data is given.
- SnmpCollect.JWalk: a `jwalk` specification given as a tuple (rather than its last element) is not modelled. The row position of other columns beyond the listed ones (`OtherCols`) is left abstract.
- Strings are sequences of characters. Unicode encoding (`encode('utf-8','ignore')`) and bytes/str distinctions are not modelled.
- `splitlines` splits on `\n`, `\r` and `\r\n` only, not on the other Unicode line breaks.
- The `_reformat_msg` formatting of messages with `*args`/`**kwargs` is done by the caller, so messages are given already formatted.
- `send`'s printing to stdout, writing to the Nagios command pipe (with its `\n` escaping) and `sys.exit` are not modelled. The model gives the text and the exit code instead. `get_hash` and `__str__` are left out.
- ResponseOutput.SendOn: the text of the error raised for a non-level argument is a fixed message. A typed sublevel (any Python object) is an integer.
- Python values stored in a `PerfData` are their `str()` text.
- Perf.Render: numeric falsy values (`0` given as an int) are not rendered empty, since values are texts.
- The concrete doctests whose literal strings are costly to evaluate (such as `Temperature=110C`) are not proved. Their rules are proved in general.
- Gauge.ReadingOf: thresholds are integers, so a float threshold such as `warn_max=70.5` cannot be given; a reading with a `.` is a float in the source and is not compared with the thresholds in the model; a malformed dotted token such as `1..2` makes `float()` raise `ValueError` in the source (naghelp/mixins.py:121), while the model gives it no test.
- Gauge.PyLess: `NoAttr` is taken to sort below every text. Equality of host values is the model's value equality, used for `v not in [None, NoAttr]`.
- `Host.to_str`, `to_list`, `get_datetime`, `debug`, `_pprint`, `save_data` and the JSON persistence are not modelled. `_get_params_from_db` is a parameter.
- Plugin.ActivePlugin.FastResponse: `host.save_data()` is not modelled; `get_plugin_informations()` is given as a parameter.
- Plugin.RequiredFields: Python's `set` order is not modelled. The fields keep their first-occurrence order, so the field reported missing is the first in that order.
- Plugin.TcpPorts: `socket.getservbyname` is a table given as a parameter.
- Plugin.ResolveName: the plugin search (`find_plugins`), `__import__` and the class checks are not modelled.
- The rest of `plugin.py` is not modelled: options parsing, the collect/parse/build-response driver, data caching, the help text and the launcher.

## Findings

| source | as written | input that shows it | evidently intended | confidence | as-written member | corrected member |
|---|---|---|---|---|---|---|
| naghelp/collect.py:654-657 | `Expect._run_cmd` strips `^.*?cmd\n*` before deleting `\r`, so the `\n*` cannot skip the `\r` of a terminal's `\r\n` | with output `cmd\r\nline\r\n` the result is `\nline` | delete `\r` first, as `Telnet._run_cmd` does, so the result is `line` | not executed | CommandOutput.ExpectOutputKeepsLeadingNewline | CommandOutput.ExpectOutputOfTranscript |
| naghelp/collect.py:1505 | AES privacy is chosen by testing `auth_protocol.lower() == 'aes'` | version 3 with `auth_protocol='sha'` and `priv_protocol='aes'` gets no AES privacy | test the privacy protocol | not executed | SnmpCollect.PrivacyFollowsAuthProtocol | SnmpCollect.PrivacyFollowsPrivProtocol |
