// `PluginResponse` (naghelp/response.py) as the object it is: its fields are
// changed in place by `set_level` and the `add*` methods.  Each method is
// proved to leave the fields as the matching function on a `Snapshot` says.
module ResponseObject {
  import opened Results
  import opened Text
  import opened Response
  import opened ResponseOutput

  class PluginResponse {
    var level: Option<Level>
    var defaultLevel: Option<Level>
    var sublevel: int
    var synopsis: Option<string>
    var levelMsgs: LevelLists
    var beginMsgs: seq<string>
    var moreMsgs: seq<string>
    var endMsgs: seq<string>
    var perfItems: seq<string>

    /** The fields as a value. */
    function State(): Snapshot
      reads this
    {
      Snapshot(level, defaultLevel, sublevel, synopsis, levelMsgs, beginMsgs, moreMsgs, endMsgs, perfItems)
    }

    /** `PluginResponse(default_level)`. */
    constructor(defaultLevel: Option<Level>)
      ensures State() == Initial(defaultLevel)
    {
      level := None;
      this.defaultLevel := defaultLevel;
      sublevel := 0;
      synopsis := None;
      levelMsgs := LevelLists([], [], [], []);
      beginMsgs := [];
      moreMsgs := [];
      endMsgs := [];
      perfItems := [];
    }

    /** `set_level(a)`. */
    method SetLevel(a: LevelArg) returns (r: Result<(), string>)
      modifies this
      ensures (State(), r) == SetLevelOn(old(State()), a)
    {
      if a.NotALevel? {
        return Err(NotALevelError);
      }
      var l := a.level;
      if level == None || level == Some(UNKNOWN) || l == CRITICAL || (level == Some(OK) && l == WARNING) {
        level := Some(l);
      }
      r := Ok(());
    }

    /** `set_sublevel(v)`. */
    method SetSublevel(v: int)
      modifies this
      ensures State() == old(State()).(sublevel := v)
    {
      sublevel := v;
    }

    /** `add(a, msg)`. */
    method Add(a: LevelArg, msg: string) returns (r: Result<(), string>)
      modifies this
      ensures (State(), r) == AddOn(old(State()), a, msg)
    {
      if a.NotALevel? {
        return Err(NotALevelError);
      }
      levelMsgs := levelMsgs.Append(a.level, Message(msg));
      r := SetLevel(a);
    }

    /** `add_comment(a, msg)`. */
    method AddComment(a: LevelArg, msg: string) returns (r: Result<(), string>)
      modifies this
      ensures (State(), r) == AddCommentOn(old(State()), a, msg)
    {
      if a.NotALevel? {
        return Err(NotALevelError);
      }
      levelMsgs := levelMsgs.Append(a.level, Comment(msg));
      r := Ok(());
    }

    /** `add_list(a, msgs, header, footer)`. */
    method AddList(a: LevelArg, msgs: seq<string>, header: Option<string>, footer: Option<string>,
                   fmt: (string, nat) -> string) returns (r: Result<(), string>)
      modifies this
      ensures (State(), r) == AddListOn(old(State()), a, msgs, header, footer, fmt)
    {
      var n := |msgs|;
      var added := false;
      var i := 0;
      while i < |msgs|
        invariant 0 <= i <= |msgs|
        invariant ListFrom(State(), a, msgs[i..], header, fmt, n, added) == ListFrom(old(State()), a, msgs, header, fmt, n, false)
      {
        assert msgs[i..][0] == msgs[i] && msgs[i..][1..] == msgs[i + 1..];
        if msgs[i] != "" {
          if !added && header.Some? {
            r := AddComment(a, fmt(header.value, n));
            if r.Err? {
              return;
            }
          }
          r := Add(a, fmt(msgs[i], n));
          if r.Err? {
            return;
          }
          added := true;
        }
        i := i + 1;
      }
      assert msgs[i..] == [];
      r := Ok(());
      if added && footer.Some? {
        r := AddComment(a, fmt(footer.value, n));
      }
    }

    /** `add_mlist(levels, lists, headers, footers)`. */
    method AddMList(levels: seq<Option<LevelArg>>, lists: seq<seq<string>>, headers: seq<Option<string>>,
                    footers: seq<Option<string>>, fmt: (string, nat) -> string) returns (r: Result<(), string>)
      modifies this
      ensures (State(), r) == AddMListOn(old(State()), levels, lists, headers, footers, fmt)
    {
      var i := 0;
      ghost var cur := State();
      ghost var goal := MListFrom(cur, levels, lists, headers, footers, fmt, 0);
      while i < |levels|
        invariant 0 <= i <= |levels|
        invariant cur == State()
        invariant MListFrom(cur, levels, lists, headers, footers, fmt, i) == goal
      {
        MListFromStep(cur, levels, lists, headers, footers, fmt, i);
        if levels[i].Some? {
          r := AddListAt(levels, lists, headers, footers, fmt, i);
          if r.Err? {
            return;
          }
          cur := State();
        }
        i := i + 1;
      }
      r := Ok(());
    }

    /** One turn of the loop of `add_mlist`: list `i` added at its level; a
        missing list is empty, a missing header or footer is `None`. */
    method AddListAt(levels: seq<Option<LevelArg>>, lists: seq<seq<string>>, headers: seq<Option<string>>,
                     footers: seq<Option<string>>, fmt: (string, nat) -> string, i: nat) returns (r: Result<(), string>)
      requires i < |levels| && levels[i].Some?
      modifies this
      ensures (State(), r) == AddListOn(old(State()), levels[i].value, if i < |lists| then lists[i] else [],
                                        if i < |headers| then headers[i] else None,
                                        if i < |footers| then footers[i] else None, fmt)
    {
      var msgs := if i < |lists| then lists[i] else [];
      var header := if i < |headers| then headers[i] else None;
      var footer := if i < |footers| then footers[i] else None;
      r := AddList(levels[i].value, msgs, header, footer, fmt);
    }

    /** `add_many(items)`. */
    method AddMany(items: seq<(LevelArg, string)>) returns (r: Result<(), string>)
      modifies this
      ensures (State(), r) == ManyOn(old(State()), items)
    {
      var i := 0;
      while i < |items|
        invariant 0 <= i <= |items|
        invariant ManyOn(State(), items[i..]) == ManyOn(old(State()), items)
      {
        assert items[i..][0] == items[i] && items[i..][1..] == items[i + 1..];
        var (a, msg) := items[i];
        if msg != "" {
          r := Add(a, msg);
          if r.Err? {
            return;
          }
        }
        i := i + 1;
      }
      assert items[i..] == [];
      r := Ok(());
    }

    /** `add_if(test, a, msg, header, footer)`. */
    method AddIf(test: Test, a: LevelArg, msg: Option<string>, header: Option<string>, footer: Option<string>)
      returns (r: Result<(), string>)
      modifies this
      ensures (State(), r) == AddIfOn(old(State()), test, a, msg, header, footer)
    {
      var m := if msg.None? then test.text else msg.value;
      if a.NotALevel? {
        return Err(NotALevelError);
      }
      r := Ok(());
      if test.truthy {
        if header.Some? {
          r := AddComment(a, header.value);
        }
        r := Add(a, m);
        if footer.Some? {
          r := AddComment(a, footer.value);
        }
        r := SetLevel(a);
      }
    }

    /** `add_elif(*items)`. */
    method AddElif(items: seq<(Test, LevelArg, Option<string>)>) returns (r: Result<(), string>)
      modifies this
      ensures (State(), r) == ElifOn(old(State()), items)
    {
      var i := 0;
      while i < |items|
        invariant 0 <= i <= |items|
        invariant State() == old(State())
        invariant ElifOn(State(), items[i..]) == ElifOn(old(State()), items)
      {
        assert items[i..][0] == items[i] && items[i..][1..] == items[i + 1..];
        var (test, a, msg) := items[i];
        var m := if msg.None? then test.text else msg.value;
        if a.NotALevel? {
          return Err(NotALevelError);
        }
        if test.truthy {
          r := Add(a, m);
          r := SetLevel(a);
          return;
        }
        i := i + 1;
      }
      assert items[i..] == [];
      r := Ok(());
    }

    /** `add_begin(msg)`. */
    method AddBegin(msg: string)
      modifies this
      ensures State() == BeginOn(old(State()), msg)
    {
      beginMsgs := beginMsgs + [msg];
    }

    /** `add_more(msg)`. */
    method AddMore(msg: string)
      modifies this
      ensures State() == MoreOn(old(State()), msg)
    {
      if msg != "" {
        moreMsgs := moreMsgs + [msg];
      }
    }

    /** `add_end(msg)`. */
    method AddEnd(msg: string)
      modifies this
      ensures State() == EndOn(old(State()), msg)
    {
      endMsgs := endMsgs + [msg];
    }

    /** `add_perf_data(data)`. */
    method AddPerfData(data: string)
      modifies this
      ensures State() == PerfOn(old(State()), data)
    {
      perfItems := perfItems + [data];
    }

    /** `set_synopsis(msg)`. */
    method SetSynopsis(msg: string)
      modifies this
      ensures State() == SynopsisOn(old(State()), msg)
    {
      synopsis := Some(msg);
    }

    /** `level_msgs_render()`: the STATUS title, then a section per level
      with entries, in the order CRITICAL, WARNING, UNKNOWN, OK; nothing
      when no level has an entry. */
    method LevelMsgsRender() returns (out: string)
      ensures out == RenderLevels(levelMsgs)
      ensures out == "" <==> !AnyEntry(levelMsgs)
    {
      var haveStatus;
      out, haveStatus := RenderSections(SectionFormat("STATUS") + "\n", StatusOrder);
      assert haveStatus <==> AnyEntry(levelMsgs) by {
        assert StatusOrder[0] == CRITICAL && StatusOrder[1] == WARNING;
        assert StatusOrder[2] == UNKNOWN && StatusOrder[3] == OK;
      }
      RenderLevelsEmpty(levelMsgs);
      if !haveStatus {
        return "";
      }
      out := out + "\n";
    }

    /** The loop of `level_msgs_render` over the levels of `order`: the
      section of each level with entries is appended to `head`, and
      `haveStatus` tells whether there was one. */
    method RenderSections(head: string, order: seq<Level>) returns (out: string, haveStatus: bool)
      ensures out == head + Blocks(levelMsgs, order)
      ensures haveStatus <==> exists j :: 0 <= j < |order| && levelMsgs.Get(order[j]) != []
    {
      out := head;
      haveStatus := false;
      var ls := levelMsgs;
      var i := 0;
      while i < |order|
        invariant 0 <= i <= |order|
        invariant out == head + Blocks(ls, order[..i])
        invariant haveStatus <==> exists j :: 0 <= j < i && ls.Get(order[j]) != []
      {
        var l := order[i];
        out := AppendSection(out, l);
        haveStatus := haveStatus || ls.Get(l) != [];
        BlocksPrefixStep(ls, head, order, i);
        SomeEntriesStep(ls, order, i);
        i := i + 1;
      }
      assert order[..i] == order;
    }

    /** One turn of the loop of `level_msgs_render`: the section of `l`, if
      it has entries, appended to `out`. */
    method AppendSection(out: string, l: Level) returns (res: string)
      ensures res == out + LevelBlock(levelMsgs, l)
    {
      var msgs := levelMsgs.Get(l);
      res := out;
      if msgs != [] {
        var title := SubsectionFormat(Name(l));
        var text := Join(Texts(msgs), "\n");
        res := res + "\n";
        res := res + title + "\n";
        res := res + text;
        res := res + "\n";
        BlockAppended(out, title, text);
      }
    }

    /** `get_output(body_max_length)`. */
    method GetOutput(bodyMax: Option<nat>) returns (r: Result<string, string>)
      ensures r == Output(State(), bodyMax)
      ensures r.Err? <==> Synopsis(State()) == ""
    {
      OutputFails(State(), bodyMax);
      var syn := if synopsis.Some? && synopsis.value != "" then synopsis.value else DefaultSynopsis(State());
      assert syn == Synopsis(State());
      var lines := SplitLines(syn);
      if lines == [] {
        return Err("IndexError: list index out of range");
      }
      var out := OutputHead(lines);
      var body := BodyText(bodyMax);
      out := out + EscapeMsg(body);
      if |perfItems| > 1 {
        out := out + ("| " + Join(perfItems[1..], " "));
      } else {
        assert out + PerfTail(perfItems) == out;
      }
      r := Ok(out);
    }

    /** The first line of `get_output`, and the line with the rest of a long
      synopsis line. */
    method OutputHead(lines: seq<string>) returns (out: string)
      requires lines != []
      ensures out == EscapeMsg(Shown(lines)) + PerfHead(perfItems) + Overflow(lines[0])
    {
      var first := lines[0];
      var start := if |first| > SynopsisMaxLength then first[..SynopsisMaxLength] else first;
      if |first| > SynopsisMaxLength || |lines| > 1 {
        start := start + "...";
      } else {
        assert start + "" == start;
      }
      out := EscapeMsg(start);
      out := out + if perfItems != [] then "|" + perfItems[0] + "\n" else "\n";
      if |first| > SynopsisMaxLength {
        out := out + ("... " + EscapeMsg(first[SynopsisMaxLength..]) + "\n");
      } else {
        assert out + Overflow(first) == out;
      }
    }

    /** The body of `get_output`: cut at `bodyMax` with a notice, then the
      end messages. */
    method BodyText(bodyMax: Option<nat>) returns (body: string)
      ensures body == Body(State(), bodyMax)
    {
      body := FullBodyText();
      if bodyMax.Some? && bodyMax.value != 0 && |body| > bodyMax.value {
        body := body[..bodyMax.value] + TruncationNotice;
      }
      body := body + Join(endMsgs, "\n");
    }

    /** The body of `get_output` before it is cut: begin messages, level
      sections and the more-messages section. */
    method FullBodyText() returns (body: string)
      ensures body == FullBody(State())
    {
      body := Join(beginMsgs, "\n");
      var levels := LevelMsgsRender();
      body := body + levels;
      if moreMsgs != [] {
        body := body + (SectionFormat(MoreTitle) + "\n" + Join(moreMsgs, "\n"));
      } else {
        assert body + "" == body;
      }
    }

    /** `send(a, synopsis, msg, sublevel)` up to the text emitted and the
      exit code; `toPipe` tells whether the output goes to the Nagios
      command pipe. */
    method Send(a: LevelArg, synopsis: string, msg: string, sublevel: Option<int>, toPipe: bool)
      returns (r: Result<(string, nat), string>)
      modifies this
      ensures State() == SendOn(old(State()), a, synopsis, msg, sublevel).0
      ensures r == SendOutput(old(State()), a, synopsis, msg, sublevel, toPipe)
    {
      var updated := SendUpdate(a, synopsis, msg, sublevel);
      if updated.Err? {
        return Err(updated.error);
      }
      var out := GetOutput(if toPipe then Some(MaxPipeOutputLength) else None);
      if out.Err? {
        return Err(out.error);
      }
      r := Ok((out.value, ExitCode(level.value)));
    }

    /** The changes `send` makes before it renders the output. */
    method SendUpdate(a: LevelArg, synopsis: string, msg: string, sublevel: Option<int>)
      returns (r: Result<(), string>)
      modifies this
      ensures (State(), r) == SendOn(old(State()), a, synopsis, msg, sublevel)
    {
      ghost var s0 := State();
      if a.Given? {
        var _ := SetLevel(a);
      }
      ghost var s1 := State();
      assert s1 == if a.Given? then s0.(level := NextLevel(s0.level, a.level)) else s0;
      if level.None? {
        level := Some(defaultLevel.GetOr(UNKNOWN));
      }
      ghost var s2 := State();
      assert s2 == if s1.level.None? then s1.(level := Some(s1.defaultLevel.GetOr(UNKNOWN))) else s1;
      if synopsis != "" {
        SetSynopsis(synopsis);
      }
      ghost var s3 := State();
      assert s3 == if synopsis != "" then s2.(synopsis := Some(synopsis)) else s2;
      if msg != "" {
        r := Add(a, msg);
        if r.Err? {
          assert (State(), r) == AddOn(s3, a, msg);
          return;
        }
      }
      if sublevel.Some? {
        SetSublevel(sublevel.value);
      }
      r := Ok(());
    }
  }

  lemma {:induction false} BlockAppended(out: string, title: string, body: string)
    ensures out + "\n" + title + "\n" + body + "\n" == out + ("\n" + title + "\n" + body + "\n")
  {
  }
}
