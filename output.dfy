// Clean-up of the text a session reads back after running a command
// (naghelp/collect.py: `Expect._run_cmd`, `Telnet._run_cmd`, and the prompt
// branch of `Ssh._run_cmd`).
//
// The source removes the echoed command with `re.sub(r'^.*?%s\n*' % cmd, '',
// out, DOTALL)`.  The command is put into the regular expression unescaped;
// this model reads it as literal text, which agrees with the source for every
// command without regex metacharacters.
module CommandOutput {
  import opened Results
  import opened Text

  /** Remove the shortest prefix that ends with the first occurrence of `cmd`,
      and the newlines that follow it; without an occurrence nothing changes. */
  function StripEcho(out: string, cmd: string): string
  {
    match Find(out, cmd)
    case None => out
    case Some(i) =>
      var rest := out[i + |cmd|..];
      rest[LeadingNewlines(rest)..]
  }

  /** The echo strip keeps a suffix of the text, which does not start with a
      newline when the command was found, and is the whole text otherwise. */
  lemma {:induction false} StripEchoSuffix(out: string, cmd: string)
    ensures !Contains(out, cmd) ==> StripEcho(out, cmd) == out
    ensures EndsWith(out, StripEcho(out, cmd))
    ensures Contains(out, cmd) ==> var r := StripEcho(out, cmd); r == [] || r[0] != '\n'
  {
    FindSpec(out, cmd);
    match Find(out, cmd)
    case None =>
    case Some(i) =>
      var rest := out[i + |cmd|..];
      var r := rest[LeadingNewlines(rest)..];
      assert out[|out| - |r|..] == r;
  }

  /** `splitlines()[:-1]` joined with "\n": the text without its last line. */
  function DropLastLine(s: string): string
  {
    var lines := SplitLines(s);
    if lines == [] then "" else Join(lines[..|lines| - 1], "\n")
  }

  /** `Expect._run_cmd` as written: strip the echo, then the trailing line
      breaks, then delete every "\r". */
  function ExpectOutputAsWritten(before: string, cmd: string): string
  {
    DeleteChar(StripTrailingBreaks(StripEcho(before, cmd)), '\r')
  }

  /** `Expect._run_cmd` with "\r" deleted before the echo is stripped, the
      order `Telnet._run_cmd` and `Ssh._run_cmd` use. */
  function ExpectOutput(before: string, cmd: string): string
  {
    StripTrailingBreaks(StripEcho(DeleteChar(before, '\r'), cmd))
  }

  /** `Telnet._run_cmd` and the prompt branch of `Ssh._run_cmd`: delete "\r",
      strip the echo, drop the last line (the prompt). */
  function PromptOutput(buffer: string, cmd: string): string
  {
    DropLastLine(StripEcho(DeleteChar(buffer, '\r'), cmd))
  }

  // ---------------------------------------------------------------- properties

  /** Both versions of the Expect clean-up leave no "\r" and no trailing line break. */
  lemma {:induction false} ExpectOutputClean(before: string, cmd: string)
    ensures var r := ExpectOutput(before, cmd);
            '\r' !in r && (r == [] || r[|r| - 1] != '\n')
    ensures var r := ExpectOutputAsWritten(before, cmd);
            '\r' !in r && (r == [] || r[|r| - 1] != '\n')
  {
    var s := StripTrailingBreaks(StripEcho(before, cmd));
    DeleteCharKeepsLast(s, '\r');
    DeleteCharRemoves(s, '\r');
    var t := StripTrailingBreaks(StripEcho(DeleteChar(before, '\r'), cmd));
    DeleteCharRemoves(before, '\r');
    StripEchoSuffix(DeleteChar(before, '\r'), cmd);
    NoCharInPrefix(StripEcho(DeleteChar(before, '\r'), cmd), t, '\r');
    StripEchoNoChar(DeleteChar(before, '\r'), cmd, '\r');
  }

  lemma {:induction false} StripEchoNoChar(out: string, cmd: string, c: char)
    requires c !in out
    ensures c !in StripEcho(out, cmd)
  {
    var r := StripEcho(out, cmd);
    StripEchoSuffix(out, cmd);
    if Contains(out, cmd) {
      forall k | 0 <= k < |r| ensures r[k] != c { assert r[k] == out[|out| - |r| + k]; }
    }
  }

  lemma {:induction false} NoCharInPrefix(s: string, p: string, c: char)
    requires c !in s && StartsWith(s, p)
    ensures c !in p
  {
    forall k | 0 <= k < |p| ensures p[k] != c { assert p[k] == s[k]; }
  }

  /** Deleting a character other than the last one keeps the last one last. */
  lemma {:induction false} DeleteCharKeepsLast(s: string, c: char)
    requires s == [] || s[|s| - 1] != c
    ensures var r := DeleteChar(s, c);
            (s == [] ==> r == []) && (s != [] ==> r != [] && r[|r| - 1] == s[|s| - 1])
  {
    if s != [] {
      DeleteCharAppend(s[..|s| - 1], [s[|s| - 1]], c);
      assert s == s[..|s| - 1] + [s[|s| - 1]];
    }
  }

  lemma {:induction false} DeleteCharAppend(a: string, b: string, c: char)
    decreases |a|
    ensures DeleteChar(a + b, c) == DeleteChar(a, c) + DeleteChar(b, c)
  {
    if a != [] {
      DeleteCharAppend(a[1..], b, c);
      assert (a + b)[1..] == a[1..] + b;
    } else {
      assert a + b == b;
    }
  }

  lemma {:induction false} DeleteCharAbsent(a: string, c: char)
    requires c !in a
    decreases |a|
    ensures DeleteChar(a, c) == a
  {
    if a != [] {
      DeleteCharAbsent(a[1..], c);
    }
  }

  /** The Telnet/Ssh clean-up leaves no "\r". */
  lemma {:induction false} PromptOutputClean(buffer: string, cmd: string)
    ensures '\r' !in PromptOutput(buffer, cmd)
  {
    var s := StripEcho(DeleteChar(buffer, '\r'), cmd);
    DeleteCharRemoves(buffer, '\r');
    StripEchoNoChar(DeleteChar(buffer, '\r'), cmd, '\r');
    var lines := SplitLines(s);
    SplitLinesHaveNoBreak(s);
    if lines != [] {
      JoinNoChar(lines[..|lines| - 1], "\n", '\r');
    }
  }

  lemma {:induction false} JoinNoChar(parts: seq<string>, sep: string, c: char)
    requires forall k :: 0 <= k < |parts| ==> c !in parts[k]
    requires c !in sep
    decreases |parts|
    ensures c !in Join(parts, sep)
  {
    if |parts| > 1 {
      JoinNoChar(parts[1..], sep, c);
    }
  }

  /** A line list ending in a break, followed by one more unterminated line,
      splits into the earlier lines and that line. */
  lemma {:induction false} SplitLinesAppendLine(x: string, p: string)
    requires x == [] || x[|x| - 1] == '\n'
    requires p != [] && forall k :: 0 <= k < |p| ==> !IsLineBreak(p[k])
    decreases |x|
    ensures SplitLines(x + p) == SplitLines(x) + [p]
  {
    var s := x + p;
    if x == [] {
      assert s == p;
      IndexOfBreakNone(p);
      SplitLinesOfLine(p);
    } else {
      var i := IndexOfBreak(x);
      IndexOfBreakPrefix(x, p, i);
      BreakLengthPrefix(x, p, i);
      var skip := BreakLength(x, i);
      var rest := x[i + skip..];
      SliceOfAppend(x, p, i, i + skip);
      assert rest == [] || rest[|rest| - 1] == '\n';
      SplitLinesAppendLine(rest, p);
      SplitLinesAt(x, i);
      SplitLinesAt(s, i);
    }
  }

  lemma {:induction false} BreakLengthPrefix(x: string, p: string, i: nat)
    requires i < |x| && x[|x| - 1] == '\n'
    ensures BreakLength(x + p, i) == BreakLength(x, i)
  {
    var s := x + p;
    assert s[i] == x[i];
    if i + 1 < |x| { assert s[i + 1] == x[i + 1]; }
  }

  lemma {:induction false} SliceOfAppend(x: string, p: string, i: nat, j: nat)
    requires i <= j <= |x|
    ensures (x + p)[j..] == x[j..] + p && (x + p)[..i] == x[..i]
  {
  }

  lemma {:induction false} IndexOfBreakPrefix(x: string, p: string, i: nat)
    requires IndexOfBreak(x) == i < |x|
    ensures IndexOfBreak(x + p) == i
  {
    var s := x + p;
    assert s[i] == x[i];
    assert forall k :: 0 <= k < i ==> s[k] == x[k];
  }

  lemma {:induction false} FindFirst(t: string, cmd: string, i: nat)
    requires OccursAt(t, cmd, i)
    requires forall j: nat :: j < i ==> !OccursAt(t, cmd, j)
    ensures Find(t, cmd) == Some(i)
  {
    FindSpec(t, cmd);
    assert Contains(t, cmd);
  }

  /** With the first occurrence of `cmd` at `i`, the echo strip keeps what
      follows it, minus the newlines right after it. */
  lemma {:induction false} StripEchoFirst(t: string, cmd: string, i: nat)
    requires OccursAt(t, cmd, i)
    requires forall j: nat :: j < i ==> !OccursAt(t, cmd, j)
    ensures StripEcho(t, cmd) == t[i + |cmd|..][LeadingNewlines(t[i + |cmd|..])..]
  {
    FindFirst(t, cmd, i);
  }

  lemma {:induction false} LeadingNewlinesOne(y: string)
    requires y == [] || y[0] != '\n'
    ensures LeadingNewlines("\n" + y) == 1
  {
    assert ("\n" + y)[1..] == y;
  }

  /** Without its prompt line, a text ending in a newline and the prompt is
      the text before that newline. */
  lemma {:induction false} DropPromptLine(body: string, prompt: string)
    requires '\r' !in body
    requires prompt != [] && forall k :: 0 <= k < |prompt| ==> !IsLineBreak(prompt[k])
    ensures DropLastLine(body + "\n" + prompt) == body
  {
    var x := body + "\n";
    assert body + "\n" + prompt == x + prompt;
    SplitLinesAppendLine(x, prompt);
    var lines := SplitLines(x);
    assert (lines + [prompt])[..|lines|] == lines;
    assert forall k :: 0 <= k < |x| ==> x[k] != '\r' by {
      forall k | 0 <= k < |x| ensures x[k] != '\r' {
        if k < |body| { assert x[k] == body[k]; }
      }
    }
    JoinSplitLines(x);
    assert x[..|x| - 1] == body;
  }

  /** With the first occurrence of `cmd` at `i`, followed by one newline and a
      text that does not start with one, the echo strip keeps that text. */
  lemma {:induction false} StripEchoBeforeLine(t: string, cmd: string, i: nat, tail: string)
    requires Find(t, cmd) == Some(i)
    requires i + |cmd| <= |t| && t[i + |cmd|..] == "\n" + tail
    requires tail == [] || tail[0] != '\n'
    ensures StripEcho(t, cmd) == tail
  {
    LeadingNewlinesOne(tail);
    assert ("\n" + tail)[1..] == tail;
  }

  /** When the channel shows some text, the echoed command, a newline, the
      command's output, a newline and the prompt line, the Telnet/Ssh clean-up
      returns exactly the command's output. */
  lemma {:induction false} PromptOutputOfTranscript(pre: string, cmd: string, body: string, prompt: string)
    requires '\r' !in pre + cmd + body + prompt
    requires Find(pre + cmd + "\n" + body + "\n" + prompt, cmd) == Some(|pre|)
    requires body == [] || body[0] != '\n'
    requires prompt != [] && forall k :: 0 <= k < |prompt| ==> !IsLineBreak(prompt[k])
    ensures PromptOutput(pre + cmd + "\n" + body + "\n" + prompt, cmd) == body
  {
    var t := pre + cmd + "\n" + body + "\n" + prompt;
    var tail := body + "\n" + prompt;
    assert t == pre + cmd + ("\n" + tail);
    assert '\r' !in t;
    assert t[|pre| + |cmd|..] == "\n" + tail;
    assert '\r' !in body;
    PromptOutputAfterEcho(t, cmd, |pre|, body, prompt);
  }

  lemma {:induction false} PromptOutputAfterEcho(t: string, cmd: string, i: nat, body: string, prompt: string)
    requires '\r' !in t && '\r' !in body
    requires Find(t, cmd) == Some(i)
    requires i + |cmd| <= |t| && t[i + |cmd|..] == "\n" + body + "\n" + prompt
    requires body == [] || body[0] != '\n'
    requires prompt != [] && forall k :: 0 <= k < |prompt| ==> !IsLineBreak(prompt[k])
    ensures PromptOutput(t, cmd) == body
  {
    DeleteCharAbsent(t, '\r');
    if body == [] {
      assert t[i + |cmd|..] == "\n\n" + prompt;
      assert prompt[0] != '\n' by { assert !IsLineBreak(prompt[0]); }
      StripEchoBeforeTwoLines(t, cmd, i, prompt);
      NoPromptLine(prompt);
    } else {
      StripEchoBeforeLine(t, cmd, i, body + "\n" + prompt);
      DropPromptLine(body, prompt);
    }
  }

  lemma {:induction false} NoPromptLine(prompt: string)
    requires prompt != [] && forall k :: 0 <= k < |prompt| ==> !IsLineBreak(prompt[k])
    ensures DropLastLine(prompt) == []
  {
    SplitLinesAppendLine([], prompt);
    assert [] + prompt == prompt;
  }

  lemma {:induction false} StripEchoBeforeTwoLines(t: string, cmd: string, i: nat, tail: string)
    requires Find(t, cmd) == Some(i)
    requires i + |cmd| <= |t| && t[i + |cmd|..] == "\n\n" + tail
    requires tail == [] || tail[0] != '\n'
    ensures StripEcho(t, cmd) == tail
  {
    LeadingNewlinesOne(tail);
    assert ("\n\n" + tail)[1..] == "\n" + tail;
    assert ("\n\n" + tail)[2..] == tail;
  }

  // ---------------------------------------------------------------- the finding

  /** On a terminal the echo of the command and every output line end in
      "\r\n".  The as-written Expect clean-up then keeps a leading "\n": the
      `\n*` after the command cannot skip the "\r" that comes first.  Deleting
      "\r" first returns the output line alone. */
  lemma {:induction false} ExpectOutputKeepsLeadingNewline(cmd: string, line: string)
    requires '\r' !in cmd && '\r' !in line
    requires line != [] && line[0] != '\n' && !IsLineBreak(line[|line| - 1])
    ensures ExpectOutputAsWritten(cmd + "\r\n" + line + "\r\n", cmd) == "\n" + line
    ensures ExpectOutput(cmd + "\r\n" + line + "\r\n", cmd) == line
  {
    var t := cmd + "\r\n" + line + "\r\n";
    var s := "\r\n" + line + "\r\n";
    assert t == cmd + s;
    EchoFirst(t, cmd);
    assert t[|cmd|..] == s;
    assert LeadingNewlines(s) == 0;
    assert StripEcho(t, cmd) == s;
    assert s == ("\r\n" + line) + "\r\n";
    StripCrlf("\r\n" + line);
    DeleteCharAppend("\r\n", line, '\r');
    DeleteCharAbsent(line, '\r');
    DeleteCrlf();
    CorrectedOutputOfLine(cmd, line);
  }

  lemma {:induction false} CorrectedOutputOfLine(cmd: string, line: string)
    requires '\r' !in cmd && '\r' !in line
    requires line != [] && line[0] != '\n' && !IsLineBreak(line[|line| - 1])
    ensures ExpectOutput(cmd + "\r\n" + line + "\r\n", cmd) == line
  {
    CrlfDeleted(cmd, line);
    var t := cmd + "\n" + line + "\n";
    EchoFirst(t, cmd);
    assert t[|cmd|..] == "\n" + line + "\n";
    assert '\r' !in t;
    DeleteCharAbsent(t, '\r');
    ExpectOutputAfterEcho(t, cmd, 0, line);
  }

  /** Deleting "\r" from the terminal form of the echo and one line. */
  lemma {:induction false} CrlfDeleted(cmd: string, line: string)
    requires '\r' !in cmd && '\r' !in line
    ensures DeleteChar(cmd + "\r\n" + line + "\r\n", '\r') == cmd + "\n" + line + "\n"
  {
    var tail := line + "\r\n";
    var mid := "\r\n" + tail;
    assert cmd + "\r\n" + line + "\r\n" == cmd + mid;
    DeleteCharAppend(line, "\r\n", '\r');
    DeleteCharAbsent(line, '\r');
    DeleteCrlf();
    assert DeleteChar(tail, '\r') == line + "\n";
    DeleteCharAppend("\r\n", tail, '\r');
    assert DeleteChar(mid, '\r') == "\n" + (line + "\n");
    DeleteCharAppend(cmd, mid, '\r');
    DeleteCharAbsent(cmd, '\r');
    assert cmd + ("\n" + (line + "\n")) == cmd + "\n" + line + "\n";
  }

  lemma {:induction false} DeleteCrlf()
    ensures DeleteChar("\r\n", '\r') == "\n"
  {
    assert DeleteChar("\n", '\r') == "\n";
  }

  lemma {:induction false} StripCrlf(x: string)
    requires x != [] && !IsLineBreak(x[|x| - 1])
    ensures StripTrailingBreaks(x + "\r\n") == x
  {
    assert (x + "\r\n")[..|x| + 1] == x + "\r";
    assert (x + "\r")[..|x|] == x;
  }

  lemma {:induction false} StripNewline(x: string)
    requires x == [] || !IsLineBreak(x[|x| - 1])
    ensures StripTrailingBreaks(x + "\n") == x
  {
    assert (x + "\n")[..|x|] == x;
  }

  /** A text that starts with the command has its first occurrence at 0. */
  lemma {:induction false} EchoFirst(t: string, cmd: string)
    requires StartsWith(t, cmd)
    ensures Find(t, cmd) == Some(0)
  {
    assert OccursAt(t, cmd, 0);
    FindFirst(t, cmd, 0);
  }

  /** `text` as a terminal shows it: every "\n" written as "\r\n". */
  function Crlf(text: string): (r: string)
    ensures DeleteChar(r, '\r') == DeleteChar(text, '\r')
  {
    if text == [] then []
    else
      var head := if text[0] == '\n' then "\r\n" else [text[0]];
      var r := head + Crlf(text[1..]);
      DeleteCharAppend(head, Crlf(text[1..]), '\r');
      DeleteCharAppend([text[0]], text[1..], '\r');
      assert text == [text[0]] + text[1..];
      r
  }

  /** With "\r" deleted first, a terminal transcript of echo, output and the
      line break before the prompt yields exactly the command's output. */
  lemma {:induction false} ExpectOutputOfTranscript(pre: string, cmd: string, body: string)
    requires '\r' !in pre + cmd + body
    requires Find(pre + cmd + "\n" + body + "\n", cmd) == Some(|pre|)
    requires body == [] || (body[0] != '\n' && !IsLineBreak(body[|body| - 1]))
    ensures ExpectOutput(Crlf(pre + cmd + "\n" + body + "\n"), cmd) == body
  {
    var t := pre + cmd + "\n" + body + "\n";
    assert '\r' !in t;
    DeleteCharAbsent(t, '\r');
    assert t[|pre| + |cmd|..] == "\n" + body + "\n";
    ExpectOutputAfterEcho(t, cmd, |pre|, body);
  }

  lemma {:induction false} ExpectOutputAfterEcho(t: string, cmd: string, i: nat, body: string)
    requires '\r' !in t
    requires Find(t, cmd) == Some(i)
    requires i + |cmd| <= |t| && t[i + |cmd|..] == "\n" + body + "\n"
    requires body == [] || (body[0] != '\n' && !IsLineBreak(body[|body| - 1]))
    ensures ExpectOutput(t, cmd) == body
  {
    DeleteCharAbsent(t, '\r');
    if body == [] {
      assert t[i + |cmd|..] == "\n\n" + [];
      StripEchoBeforeTwoLines(t, cmd, i, []);
    } else {
      StripEchoBeforeLine(t, cmd, i, body + "\n");
      StripNewline(body);
    }
  }
}
