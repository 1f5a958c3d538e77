// The remote end of an interactive session, replaced by an oracle.
//
// A session (pexpect child, telnet connection or ssh shell channel) is a
// script of outcomes, one per read, together with a log of everything the
// library did to it.  Each read consumes one outcome:
//   Matched(i, text)   the output matched pattern `i`; `text` is what came
//                      before the match (pexpect) or up to and including it
//                      (telnetlib, paramiko);
//   EndOfStream(text)  the remote side closed after sending `text`;
//   Stalled            nothing matched before the SIGALRM-based `Timeout` of
//                      the caller fired (naghelp's `TimeoutError`);
//   Expired            nothing matched before the channel's own timeout ran
//                      out: pexpect's per-call TIMEOUT (30 s by default) or
//                      the socket timeout given to `telnetlib.Telnet` or to
//                      paramiko's channel.
// An exhausted script reads as Stalled, and so does a Matched index that
// names no pattern of the call (no pattern matched).
module Channel {
  import opened Results

  /** A compiled pattern: regular expression text and the `re.I` flag, or
      pexpect's end-of-file marker. */
  datatype Pattern = Regex(text: string, ignoreCase: bool) | EofMarker

  datatype Outcome = Matched(index: nat, text: string) | EndOfStream(text: string) | Stalled | Expired

  datatype Event =
    | Sent(text: string)          // child.send / tn.write / chan.send
    | SentLine(text: string)      // child.sendline: the text followed by "\n"
    | ExpectCall(patterns: seq<Pattern>)
    | Killed(signal: int)
    | Closed

  /** The bytes an event puts on the wire. */
  function Wire(e: Event): string
  {
    match e
    case Sent(t) => t
    case SentLine(t) => t + "\n"
    case _ => ""
  }

  /** `sendline(t[:-1])` for a `t` ending in "\n" puts exactly `t` on the wire,
      the same bytes as `send(t)`. */
  lemma {:induction false} SendLineOfChopped(t: string)
    requires |t| > 0 && t[|t| - 1] == '\n'
    ensures Wire(SentLine(t[..|t| - 1])) == t == Wire(Sent(t))
  {
  }

  datatype ChanState = ChanState(script: seq<Outcome>, log: seq<Event>, before: string)

  /** The answer of one pexpect `expect(patterns)` call: a match, `pexpect.EOF`,
      the caller's alarm (`TimeoutError`) or `pexpect.TIMEOUT`. */
  datatype Reply = Found(index: nat) | Eof | TimedOut | OwnTimeout

  function Head(script: seq<Outcome>): Outcome
  {
    if script == [] then Stalled else script[0]
  }

  function Tail(script: seq<Outcome>): seq<Outcome>
  {
    if script == [] then [] else script[1..]
  }

  /** Index of the last end-of-file marker in `patterns`, or `|patterns|` when
      there is none: pexpect's searcher overwrites its `eof_index` for every
      marker it meets, so the last one wins. */
  function IndexOfEof(patterns: seq<Pattern>): (j: nat)
    ensures j <= |patterns|
    ensures j < |patterns| ==> patterns[j] == EofMarker
    ensures j < |patterns| ==> forall k :: j < k < |patterns| ==> patterns[k] != EofMarker
    ensures j == |patterns| ==> forall k :: 0 <= k < |patterns| ==> patterns[k] != EofMarker
  {
    if patterns == [] then 0
    else if patterns[|patterns| - 1] == EofMarker then |patterns| - 1
    else
      var j := IndexOfEof(patterns[..|patterns| - 1]);
      if j == |patterns| - 1 then |patterns| else j
  }

  /** Two end-of-file markers: the second one is reported. */
  lemma TwoEofMarkersPickLast(p: Pattern)
    requires p != EofMarker
    ensures IndexOfEof([EofMarker, p, EofMarker]) == 2
  {
  }

  /** pexpect's `expect(patterns)` on the state `st`: the reply and the next state.
      At end of stream, the last end-of-file marker in the list is matched instead
      of raising `pexpect.EOF`; `before` is then the remaining text. */
  function PexpectOn(st: ChanState, patterns: seq<Pattern>): (res: (ChanState, Reply))
    ensures res.0.log == st.log + [ExpectCall(patterns)]
    ensures res.0.script == Tail(st.script)
    ensures res.1.Found? ==> res.1.index < |patterns|
    ensures Head(st.script).Matched? && Head(st.script).index < |patterns| ==>
              res.1 == Found(Head(st.script).index) && res.0.before == Head(st.script).text
    ensures Head(st.script).EndOfStream? ==> (res.1.Found? <==> EofMarker in patterns)
    ensures Head(st.script).EndOfStream? && res.1.Found? ==>
              patterns[res.1.index] == EofMarker &&
              forall k :: res.1.index < k < |patterns| ==> patterns[k] != EofMarker
    ensures Head(st.script).Stalled? ==> res.1 == TimedOut
    ensures Head(st.script).Expired? ==> res.1 == OwnTimeout
  {
    var log := st.log + [ExpectCall(patterns)];
    var rest := Tail(st.script);
    match Head(st.script)
    case Matched(i, b) =>
      if i < |patterns| then (ChanState(rest, log, b), Found(i))
      else (ChanState(rest, log, st.before), TimedOut)
    case EndOfStream(b) =>
      var j := IndexOfEof(patterns);
      if j < |patterns| then (ChanState(rest, log, b), Found(j))
      else (ChanState(rest, log, b), Eof)
    case Stalled => (ChanState(rest, log, st.before), TimedOut)
    case Expired => (ChanState(rest, log, st.before), OwnTimeout)
  }

  /** The answer of one telnetlib `expect(patterns)` call, made without a
      timeout of its own: `(index, text)` where the index is -1 when the
      stream ended without a match and the text includes the matched part;
      `EOFError` when the stream ended with no text at all; the
      surrounding alarm (`TimeoutError`) raised first; or the socket's own
      timeout (`socket.timeout`) ran out first. */
  datatype TelnetReply = Read(index: int, text: string) | EofError | Deadline | SocketTimeout

  function TelnetExpectOn(st: ChanState, patterns: seq<Pattern>): (res: (ChanState, TelnetReply))
    ensures res.0.log == st.log + [ExpectCall(patterns)]
    ensures res.0.script == Tail(st.script)
    ensures res.1.Read? ==> -1 <= res.1.index < |patterns|
    ensures Head(st.script).Matched? && Head(st.script).index < |patterns| ==>
              res.1 == Read(Head(st.script).index, Head(st.script).text)
    ensures Head(st.script).EndOfStream? ==>
              res.1 == (if Head(st.script).text == [] then EofError else Read(-1, Head(st.script).text))
    ensures Head(st.script).Stalled? ==> res.1 == Deadline
    ensures Head(st.script).Expired? ==> res.1 == SocketTimeout
  {
    var log := st.log + [ExpectCall(patterns)];
    var rest := Tail(st.script);
    match Head(st.script)
    case Matched(i, b) =>
      if i < |patterns| then (ChanState(rest, log, b), Read(i, b))
      else (ChanState(rest, log, st.before), Deadline)
    case EndOfStream(b) =>
      if b == [] then (ChanState(rest, log, b), EofError)
      else (ChanState(rest, log, b), Read(-1, b))
    case Stalled => (ChanState(rest, log, st.before), Deadline)
    case Expired => (ChanState(rest, log, st.before), SocketTimeout)
  }

  /** The model of the remote end.  Every method changes the state exactly as
      the matching function says. */
  class Child {
    var script: seq<Outcome>
    var log: seq<Event>
    var before: string

    function State(): ChanState
      reads this
    {
      ChanState(script, log, before)
    }

    constructor (outcomes: seq<Outcome>)
      ensures State() == ChanState(outcomes, [], "")
    {
      script := outcomes;
      log := [];
      before := "";
    }

    method Send(t: string)
      modifies this
      ensures State() == old(State()).(log := old(log) + [Sent(t)])
    {
      log := log + [Sent(t)];
    }

    method SendLine(t: string)
      modifies this
      ensures State() == old(State()).(log := old(log) + [SentLine(t)])
    {
      log := log + [SentLine(t)];
    }

    method Kill(signal: int)
      modifies this
      ensures State() == old(State()).(log := old(log) + [Killed(signal)])
    {
      log := log + [Killed(signal)];
    }

    method Close()
      modifies this
      ensures State() == old(State()).(log := old(log) + [Closed])
    {
      log := log + [Closed];
    }

    method Expect(patterns: seq<Pattern>) returns (r: Reply)
      modifies this
      ensures (State(), r) == PexpectOn(old(State()), patterns)
    {
      var res := PexpectOn(State(), patterns);
      script, log, before := res.0.script, res.0.log, res.0.before;
      r := res.1;
    }

    method TelnetExpect(patterns: seq<Pattern>) returns (r: TelnetReply)
      modifies this
      ensures (State(), r) == TelnetExpectOn(old(State()), patterns)
    {
      var res := TelnetExpectOn(State(), patterns);
      script, log, before := res.0.script, res.0.log, res.0.before;
      r := res.1;
    }
  }
}
