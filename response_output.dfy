// Rendering a `PluginResponse` (naghelp/response.py): section titles, the
// default synopsis, the level sections, the escaping of `|`, the whole
// Nagios output of `get_output`, and what `send` does before it renders.
module ResponseOutput {
  import opened Results
  import opened Text
  import opened Response

  // ---------------------------------------------------------------- titles

  /** `c * n`. */
  function Repeat(c: char, n: nat): (r: string)
    ensures |r| == n
    ensures forall k :: 0 <= k < n ==> r[k] == c
  {
    seq(n, _ => c)
  }

  /** `'{0:<c^w}'.format(s)`: `s` centred in `w` columns of `c`, the odd
      column going to the right; a longer `s` is left as it is. */
  function Center(s: string, w: nat, c: char): string
  {
    var pad := if |s| >= w then 0 else w - |s|;
    Repeat(c, pad / 2) + s + Repeat(c, pad - pad / 2)
  }

  /** `'{0:<c<w}'.format(s)`: `s` followed by `c` up to `w` columns. */
  function LeftAlign(s: string, w: nat, c: char): string
  {
    s + Repeat(c, if |s| >= w then 0 else w - |s|)
  }

  /** The centred text is the text, with as many fill characters on the left
      as on the right, or one more on the right. */
  lemma {:induction false} CenterShape(s: string, w: nat, c: char)
    ensures var r := Center(s, w, c);
            exists left: nat, right: nat ::
              && r == Repeat(c, left) + s + Repeat(c, right)
              && left <= right <= left + 1
              && |r| == (if |s| >= w then |s| else w)
  {
    var pad := if |s| >= w then 0 else w - |s|;
    var left: nat, right: nat := pad / 2, pad - pad / 2;
    assert Center(s, w, c) == Repeat(c, left) + s + Repeat(c, right);
  }

  /** `section_format(title)`. */
  function SectionFormat(title: string): string
  {
    Center("[ " + Center(title, 8, ' ') + " ]", 80, '=')
  }

  /** `subsection_format(title)`. */
  function SubsectionFormat(title: string): string
  {
    "----" + LeftAlign("( " + title + " )", 76, '-')
  }

  /** A section title is 80 columns wide for a title of at most 72
      characters, and holds `[ title ]` (the title padded to 8 columns)
      between runs of `=` that differ by at most one. */
  lemma {:induction false} SectionFormatShape(title: string)
    ensures var inner := "[ " + Center(title, 8, ' ') + " ]";
            var r := SectionFormat(title);
            && (|title| <= 72 ==> |r| == 80)
            && exists left: nat, right: nat ::
                 r == Repeat('=', left) + inner + Repeat('=', right) && left <= right <= left + 1
  {
    CenterShape(title, 8, ' ');
    CenterShape("[ " + Center(title, 8, ' ') + " ]", 80, '=');
  }

  /** A subsection title starts with `----( title )` and is filled with `-`
      up to 80 columns. */
  lemma {:induction false} SubsectionFormatShape(title: string)
    ensures var head := "----( " + title + " )";
            var r := SubsectionFormat(title);
            && StartsWith(r, head)
            && |r| == (if |head| >= 80 then |head| else 80)
            && forall k :: |head| <= k < |r| ==> r[k] == '-'
  {
    var head := "----( " + title + " )";
    var r := SubsectionFormat(title);
    var fill := Repeat('-', if |title| + 4 >= 76 then 0 else 76 - (|title| + 4));
    assert r == head + fill;
    assert r[..|head|] == head;
    forall k | |head| <= k < |r| ensures r[k] == '-' {
      assert r[k] == fill[k - |head|];
    }
  }

  // ---------------------------------------------------------------- synopsis

  /** The entries as the strings they are. */
  function Texts(es: seq<LevelEntry>): (r: seq<string>)
    ensures |r| == |es|
    ensures forall k :: 0 <= k < |es| ==> r[k] == es[k].text
  {
    if es == [] then [] else [es[0].text] + Texts(es[1..])
  }

  /** `filter(not_comment, es)`: the messages, comments left out. */
  function Messages(es: seq<LevelEntry>): (r: seq<string>)
    ensures |r| <= |es|
  {
    if es == [] then []
    else (if es[0].Message? then [es[0].text] else []) + Messages(es[1..])
  }

  /** A text is among the messages exactly when some entry is that message. */
  lemma {:induction false} MessagesMember(es: seq<LevelEntry>, x: string)
    decreases |es|
    ensures x in Messages(es) <==> exists k :: 0 <= k < |es| && es[k] == Message(x)
  {
    if es != [] {
      MessagesMember(es[1..], x);
      if x in Messages(es[1..]) {
        var k :| 0 <= k < |es[1..]| && es[1..][k] == Message(x);
        assert es[k + 1] == Message(x);
      }
      if exists k :: 0 <= k < |es| && es[k] == Message(x) {
        var k :| 0 <= k < |es| && es[k] == Message(x);
        if k > 0 { assert es[1..][k - 1] == Message(x); }
      }
    }
  }

  lemma {:induction false} MessagesAppend(a: seq<LevelEntry>, b: seq<LevelEntry>)
    decreases |a|
    ensures Messages(a + b) == Messages(a) + Messages(b)
  {
    if a != [] {
      var head := if a[0].Message? then [a[0].text] else [];
      assert (a + b)[0] == a[0] && (a + b)[1..] == a[1..] + b;
      assert Messages(a + b) == head + Messages(a[1..] + b);
      assert Messages(a) == head + Messages(a[1..]);
      MessagesAppend(a[1..], b);
      AppendAssoc(head, Messages(a[1..]), Messages(b));
    } else {
      assert a + b == b;
    }
  }

  /** The order of the levels in the status line and the level sections. */
  const StatusOrder: seq<Level> := [CRITICAL, WARNING, UNKNOWN, OK]

  /** The number of messages of level `l`, comments not counted. */
  function Count(ls: LevelLists, l: Level): nat
  {
    |Messages(ls.Get(l))|
  }

  /** `nb_nok`: messages of the three non-OK levels. */
  function ProblemCount(ls: LevelLists): nat
  {
    Count(ls, WARNING) + Count(ls, CRITICAL) + Count(ls, UNKNOWN)
  }

  /** `'%s:%s' % (level, count)`. */
  function StatusPart(ls: LevelLists, l: Level): string
  {
    Name(l) + ":" + NatToString(Count(ls, l))
  }

  /** The parts of the status line, for the levels of `order` whose list
      (comments included) is not empty. */
  function StatusParts(ls: LevelLists, order: seq<Level>): seq<string>
    decreases |order|
  {
    if order == [] then []
    else (if ls.Get(order[0]) != [] then [StatusPart(ls, order[0])] else []) + StatusParts(ls, order[1..])
  }

  /** The level `send` ends with when none was set: `level or default_level
      or UNKNOWN`. */
  function SentLevel(s: Snapshot): Level
  {
    s.level.GetOr(s.defaultLevel.GetOr(UNKNOWN))
  }

  /** `get_default_synopsis()`. */
  function DefaultSynopsis(s: Snapshot): string
  {
    var ls := s.levelMsgs;
    var nbOk := Count(ls, OK);
    var nbNok := ProblemCount(ls);
    if nbOk + nbNok == 0 then Name(SentLevel(s))
    else if nbOk > 0 && nbNok == 0 then Name(OK)
    else if nbNok == 1 then
      var problems := Messages(ls.warning + ls.critical + ls.unknown);
      MessagesAppend(ls.warning, ls.critical);
      MessagesAppend(ls.warning + ls.critical, ls.unknown);
      problems[0]
    else "STATUS : " + Join(StatusParts(ls, StatusOrder), ", ")
  }

  /** With no message (comments do not count), the synopsis is the name of
      the level the response is sent with. */
  lemma {:induction false} SynopsisNoMessage(s: Snapshot)
    requires Count(s.levelMsgs, OK) + ProblemCount(s.levelMsgs) == 0
    ensures DefaultSynopsis(s) == Name(SentLevel(s))
    ensures s.level.None? ==> DefaultSynopsis(s) == Name(CurrentLevel(s).GetOr(UNKNOWN))
  {
  }

  /** With OK messages only, the synopsis is `OK`. */
  lemma {:induction false} SynopsisOnlyOk(s: Snapshot)
    requires Count(s.levelMsgs, OK) > 0 && ProblemCount(s.levelMsgs) == 0
    ensures DefaultSynopsis(s) == "OK"
  {
  }

  /** With exactly one WARNING, CRITICAL or UNKNOWN message, the synopsis is
      that message. */
  lemma {:induction false} SynopsisSingleProblem(s: Snapshot)
    requires ProblemCount(s.levelMsgs) == 1
    ensures exists l: Level, k :: l != OK && 0 <= k < |s.levelMsgs.Get(l)|
                                   && s.levelMsgs.Get(l)[k] == Message(DefaultSynopsis(s))
  {
    var ls := s.levelMsgs;
    var all := ls.warning + ls.critical + ls.unknown;
    MessagesAppend(ls.warning, ls.critical);
    MessagesAppend(ls.warning + ls.critical, ls.unknown);
    var x := Messages(all)[0];
    assert DefaultSynopsis(s) == x;
    MessagesMember(all, x);
    var k :| 0 <= k < |all| && all[k] == Message(x);
    if k < |ls.warning| {
      assert ls.Get(WARNING)[k] == Message(x);
    } else if k < |ls.warning| + |ls.critical| {
      assert ls.Get(CRITICAL)[k - |ls.warning|] == Message(x);
    } else {
      assert ls.Get(UNKNOWN)[k - |ls.warning| - |ls.critical|] == Message(x);
    }
  }

  /** With two problems or more, the synopsis is the status line. */
  lemma {:induction false} SynopsisStatus(s: Snapshot)
    requires ProblemCount(s.levelMsgs) >= 2
    ensures DefaultSynopsis(s) == "STATUS : " + Join(StatusParts(s.levelMsgs, StatusOrder), ", ")
  {
  }

  /** The parts of the status line name distinct levels (their names start
      with distinct letters). */
  lemma {:induction false} StatusPartInjective(ls: LevelLists, a: Level, b: Level)
    requires StatusPart(ls, a) == StatusPart(ls, b)
    ensures a == b
  {
    assert StatusPart(ls, a)[0] == Name(a)[0];
    assert StatusPart(ls, b)[0] == Name(b)[0];
  }

  /** The status line has a part for a level of the order exactly when that
      level's list is not empty. */
  lemma {:induction false} StatusPartsMember(ls: LevelLists, order: seq<Level>, l: Level)
    requires l in order
    decreases |order|
    ensures StatusPart(ls, l) in StatusParts(ls, order) <==> ls.Get(l) != []
  {
    var rest := StatusParts(ls, order[1..]);
    var here := if ls.Get(order[0]) != [] then [StatusPart(ls, order[0])] else [];
    assert StatusParts(ls, order) == here + rest;
    if StatusPart(ls, l) in here {
      StatusPartInjective(ls, l, order[0]);
    }
    if order[0] == l {
      if l in order[1..] {
        StatusPartsMember(ls, order[1..], l);
      } else {
        StatusPartsAbsent(ls, order[1..], l);
      }
    } else {
      StatusPartsMember(ls, order[1..], l);
    }
  }

  lemma {:induction false} StatusPartsAbsent(ls: LevelLists, order: seq<Level>, l: Level)
    requires l !in order
    decreases |order|
    ensures StatusPart(ls, l) !in StatusParts(ls, order)
  {
    if order != [] {
      StatusPartsAbsent(ls, order[1..], l);
      assert StatusParts(ls, order) == (if ls.Get(order[0]) != [] then [StatusPart(ls, order[0])] else [])
                                       + StatusParts(ls, order[1..]);
      if ls.Get(order[0]) != [] && StatusPart(ls, l) == StatusPart(ls, order[0]) {
        StatusPartInjective(ls, l, order[0]);
      }
    }
  }

  /** The doctest of `get_default_synopsis`: one CRITICAL and one WARNING
      message give the parts of `STATUS : CRITICAL:1, WARNING:1`. */
  lemma {:induction false} StatusPartsExample(ls: LevelLists, c: string, w: string)
    requires ls == LevelLists([], [Message(w)], [Message(c)], [])
    ensures StatusParts(ls, StatusOrder) == ["CRITICAL:1", "WARNING:1"]
  {
    assert Messages([Message(w)]) == [w] && Messages([Message(c)]) == [c];
    assert NatToString(1) == "1";
    assert Count(ls, CRITICAL) == 1 && Count(ls, WARNING) == 1;
    assert StatusPart(ls, CRITICAL) == "CRITICAL:1" && StatusPart(ls, WARNING) == "WARNING:1";
    StatusParts4(ls, CRITICAL, WARNING, UNKNOWN, OK);
    assert ls.Get(UNKNOWN) == [] && ls.Get(OK) == [];
  }

  lemma {:induction false} StatusParts4(ls: LevelLists, a: Level, b: Level, c: Level, d: Level)
    ensures StatusParts(ls, [a, b, c, d])
            == (if ls.Get(a) != [] then [StatusPart(ls, a)] else [])
               + ((if ls.Get(b) != [] then [StatusPart(ls, b)] else [])
                  + ((if ls.Get(c) != [] then [StatusPart(ls, c)] else [])
                     + (if ls.Get(d) != [] then [StatusPart(ls, d)] else [])))
  {
    StatusPartsCons(ls, d, []);
    StatusPartsCons(ls, c, [d]);
    StatusPartsCons(ls, b, [c, d]);
    StatusPartsCons(ls, a, [b, c, d]);
    assert StatusParts(ls, []) == [];
    var p4 := if ls.Get(d) != [] then [StatusPart(ls, d)] else [];
    assert p4 + [] == p4;
  }

  /** The parts of `[l] + rest`: the part of `l`, if any, then those of `rest`. */
  lemma StatusPartsCons(ls: LevelLists, l: Level, rest: seq<Level>)
    ensures StatusParts(ls, [l] + rest) == (if ls.Get(l) != [] then [StatusPart(ls, l)] else []) + StatusParts(ls, rest)
  {
    assert ([l] + rest)[0] == l && ([l] + rest)[1..] == rest;
  }

  // ---------------------------------------------------------------- level sections

  /** The section of one level: a blank line, the subsection title, and the
      entries one per line; nothing for a level without entries. */
  function LevelBlock(ls: LevelLists, l: Level): string
  {
    if ls.Get(l) == [] then ""
    else "\n" + SubsectionFormat(Name(l)) + "\n" + Join(Texts(ls.Get(l)), "\n") + "\n"
  }

  /** The sections of the levels of `order`, in that order. */
  function Blocks(ls: LevelLists, order: seq<Level>): string
    decreases |order|
  {
    if order == [] then "" else LevelBlock(ls, order[0]) + Blocks(ls, order[1..])
  }

  /** One more level at the end adds its section at the end. */
  lemma {:induction false} BlocksSnoc(ls: LevelLists, order: seq<Level>, l: Level)
    decreases |order|
    ensures Blocks(ls, order + [l]) == Blocks(ls, order) + LevelBlock(ls, l)
  {
    if order == [] {
      assert [] + [l] == [l] && [l][1..] == [];
    } else {
      assert (order + [l])[0] == order[0] && (order + [l])[1..] == order[1..] + [l];
      BlocksSnoc(ls, order[1..], l);
      AppendAssoc(LevelBlock(ls, order[0]), Blocks(ls, order[1..]), LevelBlock(ls, l));
    }
  }

  /** Text before the sections of the first `i` levels, followed by the
      section of the next level, is the text before the first `i + 1`. */
  lemma BlocksPrefixStep(ls: LevelLists, head: string, order: seq<Level>, i: nat)
    requires i < |order|
    ensures head + Blocks(ls, order[..i + 1]) == head + Blocks(ls, order[..i]) + LevelBlock(ls, order[i])
  {
    assert order[..i + 1] == order[..i] + [order[i]];
    BlocksSnoc(ls, order[..i], order[i]);
    AppendAssoc(head, Blocks(ls, order[..i]), LevelBlock(ls, order[i]));
  }

  /** One of the first `i + 1` levels has entries iff one of the first `i`
      has or the next one has. */
  lemma SomeEntriesStep(ls: LevelLists, order: seq<Level>, i: nat)
    requires i < |order|
    ensures (exists j :: 0 <= j < i + 1 && ls.Get(order[j]) != [])
            <==> (exists j :: 0 <= j < i && ls.Get(order[j]) != []) || ls.Get(order[i]) != []
  {
  }

  /** Some level list has an entry. */
  predicate AnyEntry(ls: LevelLists)
  {
    ls.critical != [] || ls.warning != [] || ls.unknown != [] || ls.ok != []
  }

  /** `level_msgs_render()`. */
  function RenderLevels(ls: LevelLists): string
  {
    if AnyEntry(ls) then SectionFormat("STATUS") + "\n" + Blocks(ls, StatusOrder) + "\n" else ""
  }

  /** The rendering is the STATUS title followed by the sections of the
      non-empty levels in the order CRITICAL, WARNING, UNKNOWN, OK. */
  lemma {:induction false} RenderLevelsOrder(ls: LevelLists)
    requires AnyEntry(ls)
    ensures RenderLevels(ls)
            == SectionFormat("STATUS") + "\n"
               + LevelBlock(ls, CRITICAL) + LevelBlock(ls, WARNING) + LevelBlock(ls, UNKNOWN) + LevelBlock(ls, OK)
               + "\n"
  {
    var c, w, u, o := LevelBlock(ls, CRITICAL), LevelBlock(ls, WARNING), LevelBlock(ls, UNKNOWN), LevelBlock(ls, OK);
    Blocks4(ls, CRITICAL, WARNING, UNKNOWN, OK);
    var h := SectionFormat("STATUS") + "\n";
    calc {
      RenderLevels(ls);
      h + (c + (w + (u + o))) + "\n";
      { AppendAssoc(c, w, u + o); AppendAssoc(c + w, u, o); }
      h + (c + w + u + o) + "\n";
      { AppendAssoc(h, c + w + u, o); AppendAssoc(h, c + w, u); AppendAssoc(h, c, w); }
      h + c + w + u + o + "\n";
    }
  }

  lemma {:induction false} Blocks4(ls: LevelLists, a: Level, b: Level, c: Level, d: Level)
    ensures Blocks(ls, [a, b, c, d]) == LevelBlock(ls, a) + (LevelBlock(ls, b) + (LevelBlock(ls, c) + LevelBlock(ls, d)))
  {
    var o := [a, b, c, d];
    assert o[1..] == [b, c, d] && o[1..][1..] == [c, d] && o[1..][1..][1..] == [d] && o[1..][1..][1..][1..] == [];
    var b4 := LevelBlock(ls, d);
    var b3 := LevelBlock(ls, c) + b4;
    var b2 := LevelBlock(ls, b) + b3;
    assert Blocks(ls, o[1..][1..][1..]) == b4 + Blocks(ls, []);
    assert Blocks(ls, o[1..][1..][1..]) == b4;
    assert Blocks(ls, o[1..][1..]) == b3;
    assert Blocks(ls, o[1..]) == b2;
  }

  /** The rendering is empty exactly when every level list is. */
  lemma {:induction false} RenderLevelsEmpty(ls: LevelLists)
    ensures RenderLevels(ls) == "" <==> !AnyEntry(ls)
  {
  }

  // ---------------------------------------------------------------- output

  /** `escape_msg(msg)`. */
  function EscapeMsg(msg: string): string
  {
    ReplaceChar(msg, '|', '!')
  }

  /** An escaped message holds no `|`, and only `|` was changed. */
  lemma {:induction false} EscapeMsgSpec(msg: string)
    ensures '|' !in EscapeMsg(msg)
    ensures |EscapeMsg(msg)| == |msg|
    ensures forall k :: 0 <= k < |msg| && msg[k] != '|' ==> EscapeMsg(msg)[k] == msg[k]
    ensures '|' !in msg ==> EscapeMsg(msg) == msg
  {
    var r := EscapeMsg(msg);
    if '|' !in msg {
      assert forall k :: 0 <= k < |msg| ==> r[k] == msg[k];
    }
  }

  const SynopsisMaxLength: nat := 75
  const MaxPipeOutputLength: nat := 7000
  const TruncationNotice := "...\n\n--- Message is too big for nagios : it has been truncated ---\n\n"
  const MoreTitle := "Additionnal informations"

  /** `self.synopsis or self.get_default_synopsis()`. */
  function Synopsis(s: Snapshot): string
  {
    if s.synopsis.Some? && s.synopsis.value != "" then s.synopsis.value else DefaultSynopsis(s)
  }

  /** The first line as shown: its first 75 characters, and `...` when
      something was cut or further lines follow. */
  function Shown(lines: seq<string>): string
    requires lines != []
  {
    var first := lines[0];
    var start := if |first| > SynopsisMaxLength then first[..SynopsisMaxLength] else first;
    start + (if |first| > SynopsisMaxLength || |lines| > 1 then "..." else "")
  }

  /** The line that carries the rest of a long first line. */
  function Overflow(first: string): string
  {
    if |first| > SynopsisMaxLength then "... " + EscapeMsg(first[SynopsisMaxLength..]) + "\n" else ""
  }

  /** What follows the synopsis on the first line: the first perf item. */
  function PerfHead(perf: seq<string>): string
  {
    if perf != [] then "|" + perf[0] + "\n" else "\n"
  }

  /** The other perf items, after the body. */
  function PerfTail(perf: seq<string>): string
  {
    if |perf| > 1 then "| " + Join(perf[1..], " ") else ""
  }

  /** The body before it is cut: begin messages, level sections, and the
      more-messages section. */
  function FullBody(s: Snapshot): string
  {
    Join(s.beginMsgs, "\n") + RenderLevels(s.levelMsgs)
    + (if s.moreMsgs != [] then SectionFormat(MoreTitle) + "\n" + Join(s.moreMsgs, "\n") else "")
  }

  /** The body, cut at `body_max_length` (when it is given and not 0) with a
      notice, then the end messages. */
  function Body(s: Snapshot, bodyMax: Option<nat>): string
  {
    var full := FullBody(s);
    var cut := if bodyMax.Some? && bodyMax.value != 0 && |full| > bodyMax.value
               then full[..bodyMax.value] + TruncationNotice else full;
    cut + Join(s.endMsgs, "\n")
  }

  /** `get_output(body_max_length)`; an empty synopsis has no first line,
      where the source raises `IndexError`. */
  function Output(s: Snapshot, bodyMax: Option<nat>): Result<string, string>
  {
    var lines := SplitLines(Synopsis(s));
    if lines == [] then Err("IndexError: list index out of range")
    else Ok(Assemble(lines, s.perfItems, Body(s, bodyMax)))
  }

  /** The output from the synopsis's lines, the perf items and the body. */
  function Assemble(lines: seq<string>, perf: seq<string>, body: string): string
    requires lines != []
  {
    EscapeMsg(Shown(lines)) + PerfHead(perf) + Overflow(lines[0]) + EscapeMsg(body) + PerfTail(perf)
  }

  /** Only an empty synopsis makes `get_output` fail. */
  lemma {:induction false} OutputFails(s: Snapshot, bodyMax: Option<nat>)
    ensures Output(s, bodyMax).Err? <==> Synopsis(s) == ""
  {
    SplitLinesEmpty(Synopsis(s));
  }

  lemma {:induction false} IndexOfCharAt(s: string, c: char, i: nat)
    requires i < |s| && s[i] == c && forall k :: 0 <= k < i ==> s[k] != c
    ensures IndexOfChar(s, c) == i
  {
  }

  lemma {:induction false} EscapeKeepsFree(msg: string, c: char)
    requires c != '!' && c !in msg
    ensures c !in EscapeMsg(msg)
  {
  }

  /** The first line of the output is the shown part of the synopsis's
      first line, escaped, then the first perf item; when that line is
      longer than 75 characters, the next line is `... ` and the rest of
      it. */
  lemma {:induction false} OutputFirstLine(s: Snapshot, bodyMax: Option<nat>)
    requires Output(s, bodyMax).Ok?
    requires s.perfItems != [] ==> '\n' !in s.perfItems[0]
    ensures var r := Output(s, bodyMax).value;
            var lines := SplitLines(Synopsis(s));
            var first := lines[0];
            var i := IndexOfChar(r, '\n');
            && i < |r|
            && r[..i] == EscapeMsg(Shown(lines)) + (if s.perfItems != [] then "|" + s.perfItems[0] else "")
            && (|first| > SynopsisMaxLength ==>
                  StartsWith(r[i + 1..], "... " + EscapeMsg(first[SynopsisMaxLength..]) + "\n"))
  {
    var lines := SplitLines(Synopsis(s));
    SplitLinesHaveNoBreak(Synopsis(s));
    AssembleFirstLine(lines, s.perfItems, Body(s, bodyMax));
  }

  lemma {:induction false} AssembleFirstLine(lines: seq<string>, perf: seq<string>, body: string)
    requires lines != [] && '\n' !in lines[0]
    requires perf != [] ==> '\n' !in perf[0]
    ensures var r := Assemble(lines, perf, body);
            var first := lines[0];
            var i := IndexOfChar(r, '\n');
            && i < |r|
            && r[..i] == EscapeMsg(Shown(lines)) + (if perf != [] then "|" + perf[0] else "")
            && (|first| > SynopsisMaxLength ==>
                  StartsWith(r[i + 1..], "... " + EscapeMsg(first[SynopsisMaxLength..]) + "\n"))
  {
    ShownFree(lines);
    EscapeKeepsFree(Shown(lines), '\n');
    var tag := if perf != [] then "|" + perf[0] else "";
    assert PerfHead(perf) == tag + "\n";
    assert '\n' !in tag;
    SplitAtBreak(EscapeMsg(Shown(lines)), tag, Overflow(lines[0]), EscapeMsg(body), PerfTail(perf));
  }

  /** The shown synopsis of a first line without a break has none. */
  lemma ShownFree(lines: seq<string>)
    requires lines != [] && '\n' !in lines[0]
    ensures '\n' !in Shown(lines)
  {
    var first := lines[0];
    var start := if |first| > SynopsisMaxLength then first[..SynopsisMaxLength] else first;
    assert '\n' !in start;
  }

  /** A text made of a line without a break, a break and the rest. */
  lemma {:induction false} SplitAtBreak(a: string, tag: string, c: string, d: string, e: string)
    requires '\n' !in a && '\n' !in tag
    ensures var r := a + (tag + "\n") + c + d + e;
            var i := IndexOfChar(r, '\n');
            i < |r| && r[..i] == a + tag && r[i + 1..] == c + d + e && StartsWith(r[i + 1..], c)
  {
    var r := a + (tag + "\n") + c + d + e;
    var line := a + tag;
    var rest := c + d + e;
    assert r == line + "\n" + rest;
    assert '\n' !in line;
    IndexOfCharAt(r, '\n', |line|);
    assert r[..|line|] == line;
    assert r[|line| + 1..] == rest;
    assert rest[..|c|] == c;
  }

  lemma {:induction false} JoinFree(parts: seq<string>, sep: string, c: char)
    requires c !in sep && forall k :: 0 <= k < |parts| ==> c !in parts[k]
    decreases |parts|
    ensures c !in Join(parts, sep)
  {
    if |parts| > 1 {
      JoinFree(parts[1..], sep, c);
    }
  }

  /** The output holds one `|` before the first perf item and one before
      the others, and no other (an escaped text has none): the body never
      splits the perf data.  The other perf items end the output. */
  lemma {:induction false} OutputPipes(s: Snapshot, bodyMax: Option<nat>)
    requires Output(s, bodyMax).Ok?
    requires forall k :: 0 <= k < |s.perfItems| ==> '|' !in s.perfItems[k]
    ensures var r := Output(s, bodyMax).value;
            var perf := s.perfItems;
            && CountChar(r, '|') == (if |perf| >= 1 then 1 else 0) + (if |perf| >= 2 then 1 else 0)
            && (|perf| >= 2 ==> EndsWith(r, "| " + Join(perf[1..], " ")))
  {
    AssemblePipes(SplitLines(Synopsis(s)), s.perfItems, Body(s, bodyMax));
  }

  lemma {:induction false} AssemblePipes(lines: seq<string>, perf: seq<string>, body: string)
    requires lines != []
    requires forall k :: 0 <= k < |perf| ==> '|' !in perf[k]
    ensures var r := Assemble(lines, perf, body);
            && CountChar(r, '|') == (if |perf| >= 1 then 1 else 0) + (if |perf| >= 2 then 1 else 0)
            && (|perf| >= 2 ==> EndsWith(r, "| " + Join(perf[1..], " ")))
  {
    var a := EscapeMsg(Shown(lines));
    var b := PerfHead(perf);
    var c := Overflow(lines[0]);
    var d := EscapeMsg(body);
    var e := PerfTail(perf);
    EscapeMsgSpec(Shown(lines));
    EscapeMsgSpec(body);
    if |lines[0]| > SynopsisMaxLength {
      EscapeMsgSpec(lines[0][SynopsisMaxLength..]);
    }
    assert '|' !in c;
    CountCharAbsent(a, '|');
    CountCharAbsent(c, '|');
    CountCharAbsent(d, '|');
    PipeCount(b, e, perf);
    CountCharAppend(a, b, '|');
    CountCharAppend(a + b, c, '|');
    CountCharAppend(a + b + c, d, '|');
    CountCharAppend(a + b + c + d, e, '|');
  }

  lemma {:induction false} PipeCount(b: string, e: string, perf: seq<string>)
    requires b == PerfHead(perf) && e == PerfTail(perf)
    requires forall k :: 0 <= k < |perf| ==> '|' !in perf[k]
    ensures CountChar(b, '|') == (if |perf| >= 1 then 1 else 0)
    ensures CountChar(e, '|') == (if |perf| >= 2 then 1 else 0)
  {
    if perf != [] {
      CountCharAppend("|", perf[0] + "\n", '|');
      CountCharAbsent(perf[0] + "\n", '|');
      AppendAssoc("|", perf[0], "\n");
      assert CountChar("|", '|') == 1;
    } else {
      CountCharAbsent(b, '|');
    }
    if |perf| >= 2 {
      JoinFree(perf[1..], " ", '|');
      CountCharAppend("| ", Join(perf[1..], " "), '|');
      CountCharAbsent(Join(perf[1..], " "), '|');
      assert CountChar("| ", '|') == 1;
    } else {
      CountCharAbsent(e, '|');
    }
  }

  /** With a length limit, the body keeps at most that many characters of
      the full body, then the truncation notice when it cut, then the end
      messages; a body within the limit is not cut. */
  lemma {:induction false} BodyLimit(s: Snapshot, m: nat)
    requires m > 0
    ensures var b := Body(s, Some(m));
            var full := FullBody(s);
            var end := Join(s.endMsgs, "\n");
            && EndsWith(b, end)
            && |b| <= m + |TruncationNotice| + |end|
            && (|full| <= m ==> b == full + end)
            && (|full| > m ==> StartsWith(b, full[..m]) && OccursAt(b, TruncationNotice, m))
  {
    var b := Body(s, Some(m));
    var full := FullBody(s);
    var end := Join(s.endMsgs, "\n");
    if |full| > m {
      assert b == full[..m] + TruncationNotice + end;
      assert b[m..m + |TruncationNotice|] == TruncationNotice;
    }
  }

  /** Without a limit (or a limit of 0) the body is never cut. */
  lemma {:induction false} BodyNoLimit(s: Snapshot)
    ensures Body(s, None) == FullBody(s) + Join(s.endMsgs, "\n")
    ensures Body(s, Some(0)) == Body(s, None)
  {
  }

  // ---------------------------------------------------------------- send

  /** What `send(a, synopsis, msg, sublevel)` does to the response before
      rendering it: a level given is set, an unset level becomes
      `default_level or UNKNOWN`, a non-empty synopsis is set, a non-empty
      message is added with `a` (which raises when `a` is no level), and a
      sublevel given is set. */
  function SendOn(s: Snapshot, a: LevelArg, synopsis: string, msg: string, sublevel: Option<int>): (r: Effect)
    ensures r.1.Ok? ==> r.0.level.Some?
    ensures r.1.Err? <==> msg != "" && a.NotALevel?
  {
    var s1 := if a.Given? then s.(level := NextLevel(s.level, a.level)) else s;
    var s2 := if s1.level.None? then s1.(level := Some(s1.defaultLevel.GetOr(UNKNOWN))) else s1;
    var s3 := if synopsis != "" then s2.(synopsis := Some(synopsis)) else s2;
    var (s4, r) := if msg != "" then AddOn(s3, a, msg) else (s3, Ok(()));
    if r.Err? then (s4, r)
    else (if sublevel.Some? then s4.(sublevel := sublevel.value) else s4, Ok(()))
  }

  /** The text `send` emits and the exit code of its level: an active plugin
      prints the text and exits with that code; for the Nagios command pipe the
      code goes with the text, whose body is cut at 7000 characters. */
  function SendOutput(s: Snapshot, a: LevelArg, synopsis: string, msg: string, sublevel: Option<int>,
                      toPipe: bool): Result<(string, nat), string>
  {
    var (s1, r) := SendOn(s, a, synopsis, msg, sublevel);
    if r.Err? then Err(r.error)
    else
      var out := Output(s1, if toPipe then Some(MaxPipeOutputLength) else None);
      if out.Err? then Err(out.error) else Ok((out.value, ExitCode(s1.level.value)))
  }

  /** After `send`, a level given has been applied by `set_level` (when none
      is given, the level is the one set before, else the default, else
      UNKNOWN), the synopsis is the one given if not empty, the message given
      is the last entry of its level, and the other fields are as they were. */
  lemma {:induction false} SendEffect(s: Snapshot, a: LevelArg, synopsis: string, msg: string, sublevel: Option<int>)
    requires SendOn(s, a, synopsis, msg, sublevel).1.Ok?
    ensures var r := SendOn(s, a, synopsis, msg, sublevel).0;
            && (a.NotALevel? ==> r.level == Some(SentLevel(s)) && r.levelMsgs == s.levelMsgs)
            && (a.Given? ==> r.level == NextLevel(s.level, a.level)
                             && r.levelMsgs == if msg != "" then s.levelMsgs.Append(a.level, Message(msg)) else s.levelMsgs)
            && r.synopsis == (if synopsis != "" then Some(synopsis) else s.synopsis)
            && r.sublevel == sublevel.GetOr(s.sublevel)
            && r.defaultLevel == s.defaultLevel && r.beginMsgs == s.beginMsgs && r.moreMsgs == s.moreMsgs
            && r.endMsgs == s.endMsgs && r.perfItems == s.perfItems
  {
    if a.Given? {
      NextLevelIdempotent(s.level, a.level);
    }
  }

  /** The exit code is the one of the level the response ends with. */
  lemma {:induction false} SendExitCode(s: Snapshot, a: LevelArg, synopsis: string, msg: string, sublevel: Option<int>,
                                       toPipe: bool)
    requires SendOutput(s, a, synopsis, msg, sublevel, toPipe).Ok?
    ensures var r := SendOn(s, a, synopsis, msg, sublevel).0;
            SendOutput(s, a, synopsis, msg, sublevel, toPipe).value.1 == ExitCode(r.level.value)
            && (a.NotALevel? ==> r.level.value == SentLevel(s))
  {
    SendEffect(s, a, synopsis, msg, sublevel);
  }
}
