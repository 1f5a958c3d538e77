// The step-negotiation engine of `Expect` (naghelp/collect.py, `_expect_steps`).
//
// A program is a sequence of steps; a step is a tuple of alternatives, each a
// pattern to wait for and an answer to give when it matches.  While a step is
// current, its alternatives are matched together with those of the next step
// (lookahead): matching one of the next step's alternatives moves on.
module ExpectSteps {
  import opened Results
  import opened Text
  import opened Channel

  /** What to do when an alternative matches: send a string (formatted with
      the context first), or one of the constants KILL, BREAK, RESPONSE, or
      nothing (`None`). */
  datatype Answer = SendText(template: string) | Kill | Break | Response | NoAnswer

  /** A pattern to expect (`None` is end of file) and its answer. */
  datatype Alternative = Alternative(pattern: Option<string>, answer: Answer)

  /** A step as written by the caller: a bare `(pattern, answer)` pair, whose
      first element is a string, or a tuple of alternatives. */
  datatype Step = Bare(pattern: string, answer: Answer) | Group(alternatives: seq<Alternative>)

  /** `login_steps`/`logout_steps` as written by the caller: one bare pair
      (first element a string) or a tuple of steps. */
  datatype Program = SinglePair(pattern: string, answer: Answer) | StepList(steps: seq<Step>)

  /** Step normalisation: a bare pair becomes a one-alternative tuple. */
  function Alternatives(s: Step): seq<Alternative>
  {
    match s
    case Bare(p, a) => [Alternative(Some(p), a)]
    case Group(alts) => alts
  }

  /** Program normalisation: a program whose first element is a string is one step. */
  function ProgramSteps(p: Program): (r: seq<Step>)
    ensures p.SinglePair? ==> |r| == 1 && Alternatives(r[0]) == [Alternative(Some(p.pattern), p.answer)]
    ensures p.StepList? ==> r == p.steps
  {
    match p
    case SinglePair(pat, a) => [Bare(pat, a)]
    case StepList(s) => s
  }

  /** `_expect_pattern_rewrite`: `None` is pexpect's EOF marker and a leading
      `^` becomes `[\r\n]`, so that a prompt "at line start" also matches
      after a carriage return. */
  function RewritePattern(p: Option<string>): (r: Pattern)
    ensures p.None? <==> r == EofMarker
    ensures p.Some? ==> !r.ignoreCase
    ensures p.Some? && StartsWith(p.value, "^") ==> r.text == "[\r\n]" + p.value[1..]
    ensures p.Some? && !StartsWith(p.value, "^") ==> r.text == p.value
  {
    match p
    case None => EofMarker
    case Some(t) =>
      if |t| > 0 && t[0] == '^' then Regex("[\r\n]" + t[1..], false) else Regex(t, false)
  }

  /** Every step has at least one alternative, so every `expects[0]` and
      `next_expects[0]` the source reads exists. */
  predicate WellFormed(steps: seq<Step>) {
    forall i :: 0 <= i < |steps| ==> |Alternatives(steps[i])| > 0
  }

  /** The step's own alternatives are the single end-of-file one: that step
      is resolved as match 0 without calling expect. */
  predicate SoleEof(alts: seq<Alternative>) {
    |alts| == 1 && alts[0].pattern.None?
  }

  /** The pass at `step` can read what it reads: `expects[0]` of the step,
      and `next_expects[0]` of the lookahead step unless the step is a sole
      end-of-file one.  An empty step read there raises `IndexError`; one
      that is never read does no harm. */
  predicate Readable(steps: seq<Step>, step: nat)
    requires step < |steps|
  {
    var own := Alternatives(steps[step]);
    own != [] && (SoleEof(own) || step + 1 >= |steps| || Alternatives(steps[step + 1]) != [])
  }

  /** The alternatives matched while `step` is current: its own, then the next
      step's when there is one. */
  function Candidates(steps: seq<Step>, step: nat): (r: seq<Alternative>)
    requires step < |steps|
    ensures |Alternatives(steps[step])| <= |r|
    ensures r[..|Alternatives(steps[step])|] == Alternatives(steps[step])
    ensures step + 1 < |steps| ==> r[|Alternatives(steps[step])|..] == Alternatives(steps[step + 1])
    ensures step + 1 == |steps| ==> r == Alternatives(steps[step])
  {
    var own := Alternatives(steps[step]);
    if step + 1 < |steps| then own + Alternatives(steps[step + 1]) else own
  }

  function Patterns(alts: seq<Alternative>): (r: seq<Pattern>)
    ensures |r| == |alts|
    ensures forall k :: 0 <= k < |alts| ==> r[k] == RewritePattern(alts[k].pattern)
  {
    seq(|alts|, k requires 0 <= k < |alts| => RewritePattern(alts[k].pattern))
  }

  datatype CollectError =
    | NoMoreData(spawn: string)              // 'No more data (EOF) from %s'
    | TooManyExpect(patterns: seq<Pattern>)  // 'Too many expect for %s'
    | DeadlineExceeded                       // TimeoutError of the SIGALRM `Timeout`
    | ChannelTimeout                         // pexpect.TIMEOUT or socket.timeout, caught nowhere
    | EmptyStep                              // IndexError: `expects[0]` of an empty step

  /** The fixed part of a run: the steps, the context formatting of answers
      (`str.format(**context)`) and the spawned command line. */
  datatype Ctx = Ctx(steps: seq<Step>, expand: string -> string, spawn: string)

  /** The event that sends an expanded answer: `sendline` without the final
      "\n" when there is one, `send` otherwise. */
  function AnswerEvent(s: string): Event
  {
    if s != [] && s[|s| - 1] == '\n' then SentLine(s[..|s| - 1]) else Sent(s)
  }

  /** Whichever of `send`/`sendline` is used, the expanded answer is exactly
      what goes on the wire. */
  lemma {:induction false} AnswerReachesWire(s: string)
    ensures Wire(AnswerEvent(s)) == s
    ensures AnswerEvent(s).SentLine? <==> (s != [] && s[|s| - 1] == '\n')
  {
  }

  /** One pass of the `while step < nb_steps` loop, from the state after the
      match is known. */
  datatype Transition =
    | Continue(st: ChanState, step: nat, loop: nat)
    | Finish(result: Result<string, CollectError>, st: ChanState)

  /** The end of a pass: advance when the match was one of the next step's
      alternatives, then the loop guard. */
  function Advance(ctx: Ctx, st: ChanState, step: nat, loop: nat, nbBase: nat, found: nat,
                   patterns: seq<Pattern>): (t: Transition)
    requires step < |ctx.steps|
    requires found >= nbBase ==> step + 1 < |ctx.steps|
    ensures t.Continue? ==> t.st == st
    ensures t.Continue? && found >= nbBase ==> t.step == step + 1 && t.loop == 1 && t.step < |ctx.steps| - 1
    ensures t.Continue? && found < nbBase ==> t.step == step && t.loop == loop + 1 <= 10
    ensures found >= nbBase && step + 2 == |ctx.steps| ==> t == Finish(Ok(""), st)
    ensures found < nbBase && loop + 1 > 10 ==> t == Finish(Err(TooManyExpect(patterns)), st)
    ensures t.Finish? ==> t.st == st
  {
    if found >= nbBase then
      if step + 1 == |ctx.steps| - 1 then Finish(Ok(""), st)
      else Continue(st, step + 1, 1)
    else if loop + 1 > 10 then Finish(Err(TooManyExpect(patterns)), st)
    else Continue(st, step, loop + 1)
  }

  /** Answer dispatch, which comes before the advance test. */
  function Dispatch(ctx: Ctx, st: ChanState, step: nat, loop: nat, expects: seq<Alternative>,
                    nbBase: nat, found: nat, patterns: seq<Pattern>): (t: Transition)
    requires step < |ctx.steps| && found < |expects|
    requires found >= nbBase ==> step + 1 < |ctx.steps|
    ensures expects[found].answer.Break? ==> t == Finish(Ok(""), st)
    ensures expects[found].answer.Response? ==> t == Finish(Ok(st.before + "."), st)
    ensures expects[found].answer.Kill? ==>
              t == Finish(Ok(st.before + "."), st.(log := st.log + [Killed(0)]))
    ensures expects[found].answer.SendText? ==>
              t == Advance(ctx, st.(log := st.log + [AnswerEvent(ctx.expand(expects[found].answer.template))]),
                           step, loop, nbBase, found, patterns)
    ensures expects[found].answer.NoAnswer? ==> t == Advance(ctx, st, step, loop, nbBase, found, patterns)
  {
    match expects[found].answer
    case SendText(tpl) =>
      var st2 := st.(log := st.log + [AnswerEvent(ctx.expand(tpl))]);
      Advance(ctx, st2, step, loop, nbBase, found, patterns)
    case Kill => Finish(Ok(st.before + "."), st.(log := st.log + [Killed(0)]))
    case Break => Finish(Ok(""), st)
    case Response => Finish(Ok(st.before + "."), st)
    case NoAnswer => Advance(ctx, st, step, loop, nbBase, found, patterns)
  }

  /** One whole pass of the loop body at `step` with loop counter `loop`. */
  function Iterate(ctx: Ctx, st: ChanState, step: nat, loop: nat): (t: Transition)
    requires step < |ctx.steps|
    ensures t.Continue? ==>
              ((t.step == step + 1 && t.loop == 1 && t.step < |ctx.steps| - 1)
               || (t.step == step && t.loop == loop + 1 <= 10))
    ensures !Readable(ctx.steps, step) ==> t == Finish(Err(EmptyStep), st)
    ensures SoleEof(Alternatives(ctx.steps[step])) ==>
              t == Dispatch(ctx, st, step, loop, Alternatives(ctx.steps[step]), 1, 0, [])
    ensures Readable(ctx.steps, step) && !SoleEof(Alternatives(ctx.steps[step])) ==>
              var expects := Candidates(ctx.steps, step);
              var (st1, reply) := PexpectOn(st, Patterns(expects));
              t == match reply
                   case Eof => Finish(Err(NoMoreData(ctx.spawn)), st1)
                   case TimedOut => Finish(Err(DeadlineExceeded), st1)
                   case OwnTimeout => Finish(Err(ChannelTimeout), st1)
                   case Found(i) =>
                     Dispatch(ctx, st1, step, loop, expects, |Alternatives(ctx.steps[step])|, i, Patterns(expects))
  {
    var own := Alternatives(ctx.steps[step]);
    if own == [] then Finish(Err(EmptyStep), st)
    else if SoleEof(own) then
      Dispatch(ctx, st, step, loop, own, 1, 0, [])
    else if !Readable(ctx.steps, step) then Finish(Err(EmptyStep), st)
    else
      var expects := Candidates(ctx.steps, step);
      var patterns := Patterns(expects);
      var (st1, reply) := PexpectOn(st, patterns);
      match reply
      case Eof => Finish(Err(NoMoreData(ctx.spawn)), st1)
      case TimedOut => Finish(Err(DeadlineExceeded), st1)
      case OwnTimeout => Finish(Err(ChannelTimeout), st1)
      case Found(i) => Dispatch(ctx, st1, step, loop, expects, |own|, i, patterns)
  }

  /** `_expect_steps` from the loop head with `step` and `infinite_loop_detect
      == loop`: its return value (or raised error) and the final channel state. */
  function RunSteps(ctx: Ctx, st: ChanState, step: nat, loop: nat): (Result<string, CollectError>, ChanState)
    requires loop <= 10
    decreases |ctx.steps| - step, 10 - loop
  {
    if step >= |ctx.steps| then (Ok(""), st)
    else
      match Iterate(ctx, st, step, loop)
      case Finish(r, st2) => (r, st2)
      case Continue(st2, step2, loop2) => RunSteps(ctx, st2, step2, loop2)
  }

  /** A whole run from the initial state. */
  function RunProgram(ctx: Ctx, st: ChanState): (Result<string, CollectError>, ChanState)
  {
    RunSteps(ctx, st, 0, 0)
  }

  // ---------------------------------------------------------------- properties

  /** A pass adds at most two events to the log (one expect call, one answer)
      and never rewrites what was logged. */
  lemma {:induction false} IterateLog(ctx: Ctx, st: ChanState, step: nat, loop: nat)
    requires step < |ctx.steps|
    ensures var t := Iterate(ctx, st, step, loop);
            |st.log| <= |t.st.log| <= |st.log| + 2 && t.st.log[..|st.log|] == st.log
  {
  }

  /** The loop guard bounds a run: from `step` with counter `loop`, at most
      `11 * (|steps| - step) - loop` passes are made, so the log grows by at
      most twice that, and what was logged before is kept. */
  lemma {:induction false} RunLogBound(ctx: Ctx, st: ChanState, step: nat, loop: nat)
    requires loop <= 10
    decreases |ctx.steps| - step, 10 - loop
    ensures var fin := RunSteps(ctx, st, step, loop).1;
            |st.log| <= |fin.log| && fin.log[..|st.log|] == st.log
    ensures step < |ctx.steps| ==>
              |RunSteps(ctx, st, step, loop).1.log| <= |st.log| + 2 * (11 * (|ctx.steps| - step) - loop)
  {
    if step < |ctx.steps| {
      IterateLog(ctx, st, step, loop);
      match Iterate(ctx, st, step, loop)
      case Finish(r, st2) =>
      case Continue(st2, step2, loop2) =>
        RunLogBound(ctx, st2, step2, loop2);
        var fin := RunSteps(ctx, st2, step2, loop2).1;
        assert fin.log[..|st.log|] == fin.log[..|st2.log|][..|st.log|];
    }
  }

  /** A well-formed program never raises the `IndexError` of an empty step. */
  lemma {:induction false} WellFormedNeverEmptyStep(ctx: Ctx, st: ChanState, step: nat, loop: nat)
    requires WellFormed(ctx.steps) && loop <= 10
    decreases |ctx.steps| - step, 10 - loop
    ensures RunSteps(ctx, st, step, loop).0 != Err(EmptyStep)
  {
    if step < |ctx.steps| {
      assert Readable(ctx.steps, step);
      match Iterate(ctx, st, step, loop)
      case Finish(r, st2) =>
      case Continue(st2, step2, loop2) =>
        WellFormedNeverEmptyStep(ctx, st2, step2, loop2);
    }
  }

  /** An empty step is read only when it is reached: after a BREAK at step 0,
      an empty third step does no harm and the run ends with `''`. */
  lemma {:induction false} EmptyStepUnreached(ctx: Ctx, st: ChanState, p: string, q: string)
    requires ctx.steps == [Bare(p, Break), Bare(q, NoAnswer), Group([])]
    requires Head(st.script).Matched? && Head(st.script).index == 0
    ensures RunSteps(ctx, st, 0, 0).0 == Ok("")
    ensures RunSteps(ctx, st, 2, 0).0 == Err(EmptyStep)
  {
    assert Alternatives(ctx.steps[0]) == [Alternative(Some(p), Break)];
    assert Alternatives(ctx.steps[1]) == [Alternative(Some(q), NoAnswer)];
    assert Alternatives(ctx.steps[2]) == [];
  }

  predicate NoBreak(alts: seq<Alternative>) {
    forall k :: 0 <= k < |alts| ==> !alts[k].answer.Break?
  }

  /** A one-step program never advances: without a BREAK answer, it ends only
      with an error or with a KILL/RESPONSE message, which ends in ".". */
  lemma {:induction false} OneStepNeverFinishesQuietly(ctx: Ctx, st: ChanState, loop: nat)
    requires |ctx.steps| == 1 && loop <= 10
    requires NoBreak(Alternatives(ctx.steps[0]))
    decreases 10 - loop
    ensures var r := RunSteps(ctx, st, 0, loop).0;
            r.Err? || (|r.value| > 0 && r.value[|r.value| - 1] == '.')
  {
    var own := Alternatives(ctx.steps[0]);
    assert Candidates(ctx.steps, 0) == own;
    match Iterate(ctx, st, 0, loop)
    case Finish(r, st2) =>
    case Continue(st2, step2, loop2) =>
      OneStepNeverFinishesQuietly(ctx, st2, loop2);
  }

  /** The last step is only ever matched as lookahead: no pass makes it the
      current step (unless it is the only one). */
  lemma {:induction false} LastStepNeverCurrent(ctx: Ctx, st: ChanState, step: nat, loop: nat)
    requires step < |ctx.steps| - 1
    ensures var t := Iterate(ctx, st, step, loop);
            t.Continue? ==> t.step < |ctx.steps| - 1
  {
  }

  /** A sole end-of-file step calls no expect: its pass adds no expect call
      to the log and dispatches the answer of alternative 0. */
  lemma {:induction false} SoleEofCallsNoExpect(ctx: Ctx, st: ChanState, step: nat, loop: nat)
    requires step < |ctx.steps|
    requires SoleEof(Alternatives(ctx.steps[step]))
    ensures var t := Iterate(ctx, st, step, loop);
            forall k :: |st.log| <= k < |t.st.log| ==> !t.st.log[k].ExpectCall?
  {
  }

  /** The loop guard: when every expect of a one-step program matches its own
      alternative 0 and that alternative only sends text, the run raises
      `Too many expect` once the counter passes 10, after `11 - loop` expect
      calls, each answered once. */
  lemma {:induction false} GuardTrips(ctx: Ctx, st: ChanState, loop: nat, p: string, tpl: string)
    requires ctx.steps == [Bare(p, SendText(tpl))] && loop <= 10
    requires |st.script| >= 11 - loop
    requires forall k :: 0 <= k < |st.script| ==> st.script[k].Matched? && st.script[k].index == 0
    decreases 10 - loop
    ensures var (r, fin) := RunSteps(ctx, st, 0, loop);
            r == Err(TooManyExpect([Regex(if StartsWith(p, "^") then "[\r\n]" + p[1..] else p, false)]))
            && |fin.log| == |st.log| + 2 * (11 - loop)
  {
    var alts := [Alternative(Some(p), SendText(tpl))];
    assert Candidates(ctx.steps, 0) == alts;
    var (st1, reply) := PexpectOn(st, Patterns(alts));
    assert reply == Found(0);
    assert Patterns(alts) == [RewritePattern(Some(p))];
    var t := Iterate(ctx, st, 0, loop);
    if loop == 10 {
      assert t == Finish(Err(TooManyExpect(Patterns(alts))), t.st);
    } else {
      assert t.Continue?;
      assert t.st.script == st.script[1..];
      GuardTrips(ctx, t.st, loop + 1, p, tpl);
    }
  }
}
