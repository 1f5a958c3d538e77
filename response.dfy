// The response of a Nagios plugin (naghelp/response.py): the four
// `ResponseLevel`s, and `PluginResponse`, which gathers level messages,
// begin/more/end messages and performance data, keeps the response level as
// the worst level seen, and renders the whole as Nagios expects it.
//
// Every operation of `PluginResponse` is first a function on a `Snapshot`
// of the object's fields; the class's methods change the fields in place and
// are proved to make exactly that change.  Message formatting (`%` and
// `str.format` with the caller's arguments) is done by the caller, except in
// `add_list`, where a format function is given the list length `_len`.
module Response {
  import opened Results
  import opened Text

  // ---------------------------------------------------------------- levels

  /** The four `ResponseLevel` objects. */
  datatype Level = OK | WARNING | CRITICAL | UNKNOWN

  /** `str(level)`, which is the level's name. */
  function Name(l: Level): string
  {
    match l
    case OK => "OK"
    case WARNING => "WARNING"
    case CRITICAL => "CRITICAL"
    case UNKNOWN => "UNKNOWN"
  }

  /** The exit code `ResponseLevel.exit()` ends the plugin with. */
  function ExitCode(l: Level): (c: nat)
    ensures c <= 3
  {
    match l
    case OK => 0
    case WARNING => 1
    case CRITICAL => 2
    case UNKNOWN => 3
  }

  /** Each level has its own exit code. */
  lemma {:induction false} ExitCodeInjective(a: Level, b: Level)
    requires ExitCode(a) == ExitCode(b)
    ensures a == b
  {
  }

  /** What a caller passes where a `ResponseLevel` is expected: one of the
      four levels, or any other value (`None` included). */
  datatype LevelArg = Given(level: Level) | NotALevel

  const NotALevelError := "A response level must be an instance of ResponseLevel"

  /** Position in the order None < UNKNOWN < OK < WARNING < CRITICAL. */
  function Rank(l: Option<Level>): nat
  {
    match l
    case None => 0
    case Some(UNKNOWN) => 1
    case Some(OK) => 2
    case Some(WARNING) => 3
    case Some(CRITICAL) => 4
  }

  function Max(a: nat, b: nat): nat { if a >= b then a else b }

  lemma {:induction false} RankInjective(a: Option<Level>, b: Option<Level>)
    requires Rank(a) == Rank(b)
    ensures a == b
  {
  }

  /** The test of `set_level(l)` as written: the level is replaced when it is
      unset or UNKNOWN, when `l` is CRITICAL, or when it is OK and `l` is
      WARNING.  That is exactly the larger of the two in the order above. */
  function NextLevel(cur: Option<Level>, l: Level): (r: Option<Level>)
    ensures r == cur || r == Some(l)
    ensures Rank(r) == Max(Rank(cur), Rank(Some(l)))
  {
    if cur == None || cur == Some(UNKNOWN) || l == CRITICAL || (cur == Some(OK) && l == WARNING) then Some(l)
    else cur
  }

  /** Setting two levels in either order gives the same level. */
  lemma {:induction false} NextLevelCommutes(cur: Option<Level>, a: Level, b: Level)
    ensures NextLevel(NextLevel(cur, a), b) == NextLevel(NextLevel(cur, b), a)
  {
    RankInjective(NextLevel(NextLevel(cur, a), b), NextLevel(NextLevel(cur, b), a));
  }

  /** Setting a level twice is setting it once. */
  lemma {:induction false} NextLevelIdempotent(cur: Option<Level>, a: Level)
    ensures NextLevel(NextLevel(cur, a), a) == NextLevel(cur, a)
  {
  }

  /** `set_level` applied to each level of `ls` in turn. */
  function Levels(cur: Option<Level>, ls: seq<Level>): Option<Level>
    decreases |ls|
  {
    if ls == [] then cur else Levels(NextLevel(cur, ls[0]), ls[1..])
  }

  /** After a series of `set_level`, the level is the worst of the levels
      set and the one before. */
  lemma {:induction false} LevelsIsMax(cur: Option<Level>, ls: seq<Level>)
    decreases |ls|
    ensures var r := Levels(cur, ls);
            && Rank(cur) <= Rank(r)
            && (forall i :: 0 <= i < |ls| ==> Rank(Some(ls[i])) <= Rank(r))
            && (r == cur || exists i :: 0 <= i < |ls| && r == Some(ls[i]))
  {
    if ls != [] {
      var next := NextLevel(cur, ls[0]);
      LevelsIsMax(next, ls[1..]);
      var r := Levels(cur, ls);
      assert r == Levels(next, ls[1..]);
      forall i | 0 <= i < |ls| ensures Rank(Some(ls[i])) <= Rank(r) {
        if i > 0 { assert ls[i] == ls[1..][i - 1]; }
      }
      if r != next {
        var i :| 0 <= i < |ls[1..]| && r == Some(ls[1..][i]);
        assert r == Some(ls[i + 1]);
      } else if next != cur {
        assert r == Some(ls[0]);
      }
    }
  }

  /** The final level does not depend on the order (nor the repetition) of
      the levels set. */
  lemma {:induction false} LevelsOrderFree(cur: Option<Level>, a: seq<Level>, b: seq<Level>)
    requires forall l :: l in a <==> l in b
    ensures Levels(cur, a) == Levels(cur, b)
  {
    var ra := Levels(cur, a);
    var rb := Levels(cur, b);
    LevelsIsMax(cur, a);
    LevelsIsMax(cur, b);
    assert Rank(ra) <= Rank(rb) by {
      if ra != cur {
        var i :| 0 <= i < |a| && ra == Some(a[i]);
        assert a[i] in b;
        var j :| 0 <= j < |b| && b[j] == a[i];
      }
    }
    assert Rank(rb) <= Rank(ra) by {
      if rb != cur {
        var i :| 0 <= i < |b| && rb == Some(b[i]);
        assert b[i] in a;
        var j :| 0 <= j < |a| && a[j] == b[i];
      }
    }
    RankInjective(ra, rb);
  }

  /** Once CRITICAL, the level stays CRITICAL. */
  lemma {:induction false} CriticalStays(ls: seq<Level>)
    ensures Levels(Some(CRITICAL), ls) == Some(CRITICAL)
  {
    LevelsIsMax(Some(CRITICAL), ls);
    RankInjective(Levels(Some(CRITICAL), ls), Some(CRITICAL));
  }

  // ---------------------------------------------------------------- the fields

  /** An entry of a level list: a message, or a `LevelComment`, which is
      shown like a message but not counted in the synopsis. */
  datatype LevelEntry = Message(text: string) | Comment(text: string)

  /** `level_msgs`: one list per level. */
  datatype LevelLists = LevelLists(ok: seq<LevelEntry>, warning: seq<LevelEntry>,
                                   critical: seq<LevelEntry>, unknown: seq<LevelEntry>)
  {
    function Get(l: Level): seq<LevelEntry>
    {
      match l
      case OK => ok
      case WARNING => warning
      case CRITICAL => critical
      case UNKNOWN => unknown
    }

    /** `level_msgs[l].append(e)`. */
    function Append(l: Level, e: LevelEntry): (r: LevelLists)
      ensures r.Get(l) == Get(l) + [e]
      ensures forall k: Level :: k != l ==> r.Get(k) == Get(k)
    {
      match l
      case OK => this.(ok := ok + [e])
      case WARNING => this.(warning := warning + [e])
      case CRITICAL => this.(critical := critical + [e])
      case UNKNOWN => this.(unknown := unknown + [e])
    }

    /** `level_msgs[l].extend(es)`. */
    function Extend(l: Level, es: seq<LevelEntry>): (r: LevelLists)
      ensures r.Get(l) == Get(l) + es
      ensures forall k: Level :: k != l ==> r.Get(k) == Get(k)
    {
      match l
      case OK => this.(ok := ok + es)
      case WARNING => this.(warning := warning + es)
      case CRITICAL => this.(critical := critical + es)
      case UNKNOWN => this.(unknown := unknown + es)
    }
  }

  /** Two `level_msgs` with the same four lists are the same. */
  lemma {:induction false} ListsEqual(x: LevelLists, y: LevelLists)
    requires forall k: Level :: x.Get(k) == y.Get(k)
    ensures x == y
  {
    assert x.Get(OK) == y.Get(OK) && x.Get(WARNING) == y.Get(WARNING);
    assert x.Get(CRITICAL) == y.Get(CRITICAL) && x.Get(UNKNOWN) == y.Get(UNKNOWN);
  }

  lemma {:induction false} ExtendNil(x: LevelLists, l: Level)
    ensures x.Extend(l, []) == x
  {
    assert x.Get(l) + [] == x.Get(l);
    ListsEqual(x.Extend(l, []), x);
  }

  lemma {:induction false} AppendIsExtend(x: LevelLists, l: Level, e: LevelEntry)
    ensures x.Append(l, e) == x.Extend(l, [e])
  {
    ListsEqual(x.Append(l, e), x.Extend(l, [e]));
  }

  /** Extending a list twice is extending it by both parts. */
  lemma {:induction false} ExtendExtend(x: LevelLists, l: Level, a: seq<LevelEntry>, b: seq<LevelEntry>)
    ensures x.Extend(l, a).Extend(l, b) == x.Extend(l, a + b)
  {
    AppendAssoc(x.Get(l), a, b);
    ListsEqual(x.Extend(l, a).Extend(l, b), x.Extend(l, a + b));
  }

  /** The fields of a `PluginResponse`. */
  datatype Snapshot = Snapshot(level: Option<Level>, defaultLevel: Option<Level>, sublevel: int,
                               synopsis: Option<string>, levelMsgs: LevelLists, beginMsgs: seq<string>,
                               moreMsgs: seq<string>, endMsgs: seq<string>, perfItems: seq<string>)

  /** `PluginResponse(default_level)`. */
  function Initial(defaultLevel: Option<Level>): Snapshot
  {
    Snapshot(None, defaultLevel, 0, None, LevelLists([], [], [], []), [], [], [], [])
  }

  /** `get_current_level()`. */
  function CurrentLevel(s: Snapshot): (r: Option<Level>)
    ensures s.level.None? ==> r == s.defaultLevel
    ensures s.level.Some? ==> r == s.level
  {
    if s.level.None? then s.defaultLevel else s.level
  }

  // ---------------------------------------------------------------- adding messages

  /** The effect of an operation that may raise: the new fields, and the
      exception if one was raised (the fields are then as they were when it
      was raised). */
  type Effect = (Snapshot, Result<(), string>)

  /** `set_level(a)`. */
  function SetLevelOn(s: Snapshot, a: LevelArg): Effect
  {
    match a
    case NotALevel => (s, Err(NotALevelError))
    case Given(l) => (s.(level := NextLevel(s.level, l)), Ok(()))
  }

  /** `add(l, msg)` with a level. */
  function AddIn(s: Snapshot, l: Level, msg: string): Snapshot
  {
    s.(levelMsgs := s.levelMsgs.Append(l, Message(msg)), level := NextLevel(s.level, l))
  }

  /** `add(a, msg)`. */
  function AddOn(s: Snapshot, a: LevelArg, msg: string): Effect
  {
    match a
    case NotALevel => (s, Err(NotALevelError))
    case Given(l) => (AddIn(s, l, msg), Ok(()))
  }

  /** `add_comment(l, msg)` with a level: the level is left alone. */
  function CommentIn(s: Snapshot, l: Level, msg: string): Snapshot
  {
    s.(levelMsgs := s.levelMsgs.Append(l, Comment(msg)))
  }

  /** `add_comment(a, msg)`. */
  function AddCommentOn(s: Snapshot, a: LevelArg, msg: string): Effect
  {
    match a
    case NotALevel => (s, Err(NotALevelError))
    case Given(l) => (CommentIn(s, l, msg), Ok(()))
  }

  /** The loop of `add_list` over the messages still to see; `added` tells
      whether a message was added already, `n` is `_len`. */
  function ListFrom(s: Snapshot, a: LevelArg, msgs: seq<string>, header: Option<string>,
                    fmt: (string, nat) -> string, n: nat, added: bool): (Snapshot, bool, Result<(), string>)
    decreases |msgs|
  {
    if msgs == [] then (s, added, Ok(()))
    else if msgs[0] == "" then ListFrom(s, a, msgs[1..], header, fmt, n, added)
    else
      var (s1, r1) := if !added && header.Some? then AddCommentOn(s, a, fmt(header.value, n)) else (s, Ok(()));
      if r1.Err? then (s1, added, r1)
      else
        var (s2, r2) := AddOn(s1, a, fmt(msgs[0], n));
        if r2.Err? then (s2, added, r2)
        else ListFrom(s2, a, msgs[1..], header, fmt, n, true)
  }

  /** `add_list(a, msgs, header, footer)`, every text formatted with
      `_len = len(msgs)`. */
  function AddListOn(s: Snapshot, a: LevelArg, msgs: seq<string>, header: Option<string>, footer: Option<string>,
                     fmt: (string, nat) -> string): Effect
  {
    var (s1, added, r) := ListFrom(s, a, msgs, header, fmt, |msgs|, false);
    if r.Err? then (s1, r)
    else if added && footer.Some? then AddCommentOn(s1, a, fmt(footer.value, |msgs|))
    else (s1, Ok(()))
  }

  /** The non-empty messages, in order. */
  function NonEmpty(msgs: seq<string>): (r: seq<string>)
    ensures forall k :: 0 <= k < |r| ==> r[k] != ""
  {
    if msgs == [] then [] else (if msgs[0] == "" then [] else [msgs[0]]) + NonEmpty(msgs[1..])
  }

  /** The messages as level messages, formatted with `_len = n`. */
  function Formatted(msgs: seq<string>, fmt: (string, nat) -> string, n: nat): (r: seq<LevelEntry>)
    ensures |r| == |msgs|
  {
    if msgs == [] then [] else [Message(fmt(msgs[0], n))] + Formatted(msgs[1..], fmt, n)
  }

  function CommentOf(c: Option<string>, fmt: (string, nat) -> string, n: nat): seq<LevelEntry>
  {
    if c.Some? then [Comment(fmt(c.value, n))] else []
  }

  function OptComment(c: Option<string>): seq<LevelEntry>
  {
    if c.Some? then [Comment(c.value)] else []
  }

  /** The fields after messages `es` were added to the list of level `l`. */
  function Grown(s: Snapshot, l: Level, es: seq<LevelEntry>): (r: Snapshot)
    ensures r.levelMsgs.Get(l) == s.levelMsgs.Get(l) + es
    ensures forall k: Level :: k != l ==> r.levelMsgs.Get(k) == s.levelMsgs.Get(k)
  {
    s.(levelMsgs := s.levelMsgs.Extend(l, es), level := NextLevel(s.level, l))
  }

  lemma {:induction false} GrownGrown(s: Snapshot, l: Level, a: seq<LevelEntry>, b: seq<LevelEntry>)
    ensures Grown(Grown(s, l, a), l, b) == Grown(s, l, a + b)
  {
    ExtendExtend(s.levelMsgs, l, a, b);
    NextLevelIdempotent(s.level, l);
  }

  /** One turn of the `add_list` loop on a non-empty message with a level. */
  lemma {:induction false} ListFromStep(s: Snapshot, l: Level, msgs: seq<string>, header: Option<string>,
                                       fmt: (string, nat) -> string, n: nat, added: bool)
    requires msgs != [] && msgs[0] != ""
    ensures var pre := if !added then CommentOf(header, fmt, n) else [];
            var s2 := Grown(s, l, pre + [Message(fmt(msgs[0], n))]);
            ListFrom(s, Given(l), msgs, header, fmt, n, added) == ListFrom(s2, Given(l), msgs[1..], header, fmt, n, true)
  {
    var pre := if !added then CommentOf(header, fmt, n) else [];
    var m := Message(fmt(msgs[0], n));
    var s1 := if !added && header.Some? then CommentIn(s, l, fmt(header.value, n)) else s;
    if !added && header.Some? { AppendIsExtend(s.levelMsgs, l, Comment(fmt(header.value, n))); }
    AppendIsExtend(s1.levelMsgs, l, m);
    ExtendExtend(s.levelMsgs, l, pre, [m]);
    if pre == [] {
      assert s1.levelMsgs == s.levelMsgs.Extend(l, pre) by { ExtendNil(s.levelMsgs, l); }
    }
  }

  /** What the `add_list` loop does with a level: it raises nothing, tells
      whether some message is non-empty, and adds the header comment (unless
      a message was added before) and the non-empty messages, in order, to
      the level's list, setting the level; with no non-empty message it
      changes nothing. */
  predicate ListFromAdds(s: Snapshot, l: Level, msgs: seq<string>, header: Option<string>,
                         fmt: (string, nat) -> string, n: nat, added: bool)
  {
    var r := ListFrom(s, Given(l), msgs, header, fmt, n, added);
    var kept := NonEmpty(msgs);
    var pre := if !added then CommentOf(header, fmt, n) else [];
    && r.2.Ok?
    && r.1 == (added || kept != [])
    && r.0 == if kept == [] then s else Grown(s, l, pre + Formatted(kept, fmt, n))
  }

  lemma {:induction false} ListFromEffect(s: Snapshot, l: Level, msgs: seq<string>, header: Option<string>,
                                         fmt: (string, nat) -> string, n: nat, added: bool)
    requires added ==> s.level == NextLevel(s.level, l)
    decreases |msgs|
    ensures ListFromAdds(s, l, msgs, header, fmt, n, added)
  {
    if msgs != [] {
      var rest := msgs[1..];
      assert NonEmpty(msgs) == (if msgs[0] == "" then [] else [msgs[0]]) + NonEmpty(rest);
      if msgs[0] == "" {
        assert NonEmpty(msgs) == NonEmpty(rest);
        ListFromEffect(s, l, rest, header, fmt, n, added);
      } else {
        var pre := if !added then CommentOf(header, fmt, n) else [];
        var s2 := Grown(s, l, pre + [Message(fmt(msgs[0], n))]);
        NextLevelIdempotent(s.level, l);
        ListFromEffect(s2, l, rest, header, fmt, n, true);
        ListFromCons(s, l, msgs, header, fmt, n, added);
      }
    }
  }

  /** A non-empty first message: the loop's effect from the next message on
      gives its effect from this one. */
  lemma {:induction false} ListFromCons(s: Snapshot, l: Level, msgs: seq<string>, header: Option<string>,
                                       fmt: (string, nat) -> string, n: nat, added: bool)
    requires msgs != [] && msgs[0] != ""
    requires var pre := if !added then CommentOf(header, fmt, n) else [];
             ListFromAdds(Grown(s, l, pre + [Message(fmt(msgs[0], n))]), l, msgs[1..], header, fmt, n, true)
    ensures ListFromAdds(s, l, msgs, header, fmt, n, added)
  {
    var rest := msgs[1..];
    ListFromStep(s, l, msgs, header, fmt, n, added);
    var pre := if !added then CommentOf(header, fmt, n) else [];
    var m := Message(fmt(msgs[0], n));
    var s2 := Grown(s, l, pre + [m]);
    var later := Formatted(NonEmpty(rest), fmt, n);
    assert NonEmpty(msgs) == [msgs[0]] + NonEmpty(rest);
    assert Formatted(NonEmpty(msgs), fmt, n) == [m] + later;
    AppendAssoc(pre, [m], later);
    var r := ListFrom(s, Given(l), msgs, header, fmt, n, added);
    var r2 := ListFrom(s2, Given(l), rest, header, fmt, n, true);
    assert r == r2;
    assert r2.2.Ok? && r2.1;
    if NonEmpty(rest) != [] {
      assert r2.0 == Grown(s2, l, [] + later);
      assert [] + later == later;
      GrownGrown(s, l, pre + [m], later);
    } else {
      assert r2.0 == s2;
      assert later == [];
      assert pre + [m] + later == pre + [m];
    }
  }

  /** `add_list` with a level: when some message is non-empty, the level's
      list gets the header comment, the non-empty messages in order and the
      footer comment, and the level is set; when all are empty nothing
      changes.  No other field changes. */
  lemma {:induction false} AddListEffect(s: Snapshot, l: Level, msgs: seq<string>, header: Option<string>,
                                        footer: Option<string>, fmt: (string, nat) -> string)
    ensures var (r, res) := AddListOn(s, Given(l), msgs, header, footer, fmt);
            var kept := NonEmpty(msgs);
            var n := |msgs|;
            && res.Ok?
            && (kept == [] ==> r == s)
            && (kept != [] ==>
                  r == Grown(s, l, CommentOf(header, fmt, n) + Formatted(kept, fmt, n) + CommentOf(footer, fmt, n)))
  {
    var n := |msgs|;
    var kept := NonEmpty(msgs);
    ListFromEffect(s, l, msgs, header, fmt, n, false);
    if kept != [] {
      var body := CommentOf(header, fmt, n) + Formatted(kept, fmt, n);
      ExtendExtend(s.levelMsgs, l, body, CommentOf(footer, fmt, n));
      if footer.Some? {
        AppendIsExtend(s.levelMsgs.Extend(l, body), l, Comment(fmt(footer.value, n)));
      } else {
        ExtendNil(s.levelMsgs.Extend(l, body), l);
      }
    }
  }

  /** `add_list` with something else than a level raises exactly when a
      message would have been added, and changes nothing. */
  lemma {:induction false} AddListNotALevel(s: Snapshot, msgs: seq<string>, header: Option<string>,
                                           footer: Option<string>, fmt: (string, nat) -> string)
    ensures var (r, res) := AddListOn(s, NotALevel, msgs, header, footer, fmt);
            r == s && (res.Err? <==> NonEmpty(msgs) != [])
  {
    ListFromNotALevel(s, msgs, header, fmt, |msgs|);
  }

  lemma {:induction false} ListFromNotALevel(s: Snapshot, msgs: seq<string>, header: Option<string>,
                                            fmt: (string, nat) -> string, n: nat)
    decreases |msgs|
    ensures var (r, added2, res) := ListFrom(s, NotALevel, msgs, header, fmt, n, false);
            r == s && !added2 && (res.Err? <==> NonEmpty(msgs) != [])
  {
    if msgs != [] {
      assert NonEmpty(msgs) == (if msgs[0] == "" then [] else [msgs[0]]) + NonEmpty(msgs[1..]);
      if msgs[0] == "" {
        ListFromNotALevel(s, msgs[1..], header, fmt, n);
      }
    }
  }

  /** The loop of `add_mlist` from list `i` on: a `None` level skips its
      list; a missing list is empty, a missing header or footer is `None`. */
  function MListFrom(s: Snapshot, levels: seq<Option<LevelArg>>, lists: seq<seq<string>>,
                     headers: seq<Option<string>>, footers: seq<Option<string>>,
                     fmt: (string, nat) -> string, i: nat): Effect
    decreases |levels| - i
  {
    if i >= |levels| then (s, Ok(()))
    else if levels[i].None? then MListFrom(s, levels, lists, headers, footers, fmt, i + 1)
    else
      var msgs := if i < |lists| then lists[i] else [];
      var header := if i < |headers| then headers[i] else None;
      var footer := if i < |footers| then footers[i] else None;
      var (s1, r) := AddListOn(s, levels[i].value, msgs, header, footer, fmt);
      if r.Err? then (s1, r) else MListFrom(s1, levels, lists, headers, footers, fmt, i + 1)
  }

  /** `MListFrom` at a list still to see, unfolded once. */
  lemma MListFromStep(s: Snapshot, levels: seq<Option<LevelArg>>, lists: seq<seq<string>>,
                      headers: seq<Option<string>>, footers: seq<Option<string>>,
                      fmt: (string, nat) -> string, i: nat)
    requires i < |levels|
    ensures levels[i].None? ==>
              MListFrom(s, levels, lists, headers, footers, fmt, i) == MListFrom(s, levels, lists, headers, footers, fmt, i + 1)
    ensures levels[i].Some? ==>
              var e := AddListOn(s, levels[i].value, if i < |lists| then lists[i] else [],
                                 if i < |headers| then headers[i] else None,
                                 if i < |footers| then footers[i] else None, fmt);
              MListFrom(s, levels, lists, headers, footers, fmt, i)
              == if e.1.Err? then e else MListFrom(e.0, levels, lists, headers, footers, fmt, i + 1)
  {
  }

  /** `add_mlist(levels, lists, headers, footers)`. */
  function AddMListOn(s: Snapshot, levels: seq<Option<LevelArg>>, lists: seq<seq<string>>,
                      headers: seq<Option<string>>, footers: seq<Option<string>>,
                      fmt: (string, nat) -> string): Effect
  {
    MListFrom(s, levels, lists, headers, footers, fmt, 0)
  }

  /** A level given without a list adds nothing: its list is taken as
      empty. */
  lemma {:induction false} MListMissingList(s: Snapshot, levels: seq<Option<LevelArg>>, headers: seq<Option<string>>,
                                           footers: seq<Option<string>>, fmt: (string, nat) -> string, i: nat)
    requires forall k :: 0 <= k < |levels| ==> levels[k].None? || levels[k].value.Given?
    decreases |levels| - i
    ensures MListFrom(s, levels, [], headers, footers, fmt, i) == (s, Ok(()))
  {
    if i < |levels| && levels[i].Some? {
      var header := if i < |headers| then headers[i] else None;
      var footer := if i < |footers| then footers[i] else None;
      AddListEffect(s, levels[i].value.level, [], header, footer, fmt);
      assert AddListOn(s, levels[i].value, [], header, footer, fmt).0 == s;
    }
    if i < |levels| {
      MListMissingList(s, levels, headers, footers, fmt, i + 1);
    }
  }

  /** The loop of `add_many`: empty messages are skipped, the others added
      each with its own level. */
  function ManyOn(s: Snapshot, items: seq<(LevelArg, string)>): Effect
    decreases |items|
  {
    if items == [] then (s, Ok(()))
    else if items[0].1 == "" then ManyOn(s, items[1..])
    else
      var (s1, r) := AddOn(s, items[0].0, items[0].1);
      if r.Err? then (s1, r) else ManyOn(s1, items[1..])
  }

  /** The pairs whose message is not empty. */
  function NonEmptyItems(items: seq<(LevelArg, string)>): (r: seq<(LevelArg, string)>)
    ensures forall k :: 0 <= k < |r| ==> r[k].1 != ""
  {
    if items == [] then []
    else (if items[0].1 == "" then [] else [items[0]]) + NonEmptyItems(items[1..])
  }

  /** Empty messages make no difference to `add_many`. */
  lemma {:induction false} ManyIgnoresEmpty(s: Snapshot, items: seq<(LevelArg, string)>)
    decreases |items|
    ensures ManyOn(s, items) == ManyOn(s, NonEmptyItems(items))
  {
    if items != [] {
      var rest := items[1..];
      var kept := NonEmptyItems(items);
      assert kept == (if items[0].1 == "" then [] else [items[0]]) + NonEmptyItems(rest);
      if items[0].1 == "" {
        assert kept == NonEmptyItems(rest);
        ManyIgnoresEmpty(s, rest);
      } else {
        assert kept[0] == items[0] && kept[1..] == NonEmptyItems(rest);
        var (s1, r) := AddOn(s, items[0].0, items[0].1);
        if r.Ok? {
          ManyIgnoresEmpty(s1, rest);
        }
      }
    }
  }

  /** The levels of some pairs, all of them levels. */
  function LevelsOf(items: seq<(LevelArg, string)>): (r: seq<Level>)
    requires forall k :: 0 <= k < |items| ==> items[k].0.Given?
    ensures |r| == |items|
  {
    if items == [] then [] else [items[0].0.level] + LevelsOf(items[1..])
  }

  /** When every pair holds a level, `add_many` raises nothing and the
      level becomes the worst level of the non-empty messages (and which
      one does not depend on their order, by `LevelsOrderFree`). */
  lemma {:induction false} ManyLevel(s: Snapshot, items: seq<(LevelArg, string)>)
    requires forall k :: 0 <= k < |items| ==> items[k].0.Given? && items[k].1 != ""
    decreases |items|
    ensures ManyOn(s, items).1.Ok?
    ensures ManyOn(s, items).0.level == Levels(s.level, LevelsOf(items))
  {
    if items != [] {
      var s1 := AddIn(s, items[0].0.level, items[0].1);
      ManyLevel(s1, items[1..]);
      assert LevelsOf(items) == [items[0].0.level] + LevelsOf(items[1..]);
      assert LevelsOf(items)[1..] == LevelsOf(items[1..]);
    }
  }

  /** The value given as `test`: whether it is true, and `str(test)`, which
      is the message when none is given. */
  datatype Test = Test(truthy: bool, text: string)

  /** `add_if(test, a, msg, header, footer)`. */
  function AddIfOn(s: Snapshot, test: Test, a: LevelArg, msg: Option<string>,
                   header: Option<string>, footer: Option<string>): Effect
  {
    var m := if msg.None? then test.text else msg.value;
    match a
    case NotALevel => (s, Err(NotALevelError))
    case Given(l) =>
      if !test.truthy then (s, Ok(()))
      else
        var s1 := if header.Some? then CommentIn(s, l, header.value) else s;
        var s2 := AddIn(s1, l, m);
        var s3 := if footer.Some? then CommentIn(s2, l, footer.value) else s2;
        (s3.(level := NextLevel(s3.level, l)), Ok(()))
  }

  /** A true test adds the header, the message (the test's text when none
      is given) and the footer to the level's list and sets the level; a
      false one changes nothing. */
  lemma {:induction false} AddIfEffect(s: Snapshot, test: Test, l: Level, msg: Option<string>,
                                      header: Option<string>, footer: Option<string>)
    ensures var (r, res) := AddIfOn(s, test, Given(l), msg, header, footer);
            var m := if msg.None? then test.text else msg.value;
            && res.Ok?
            && (!test.truthy ==> r == s)
            && (test.truthy ==>
                  r == Grown(s, l, OptComment(header) + [Message(m)] + OptComment(footer)))
  {
    NextLevelIdempotent(s.level, l);
    if test.truthy {
      var m := if msg.None? then test.text else msg.value;
      var x := s.levelMsgs;
      var x1 := x.Extend(l, OptComment(header));
      var x2 := x1.Extend(l, [Message(m)]);
      var x3 := x2.Extend(l, OptComment(footer));
      if header.Some? { AppendIsExtend(x, l, Comment(header.value)); } else { ExtendNil(x, l); }
      AppendIsExtend(x1, l, Message(m));
      if footer.Some? { AppendIsExtend(x2, l, Comment(footer.value)); } else { ExtendNil(x2, l); }
      ExtendExtend(x, l, OptComment(header), [Message(m)]);
      ExtendExtend(x, l, OptComment(header) + [Message(m)], OptComment(footer));
    }
  }

  /** `add_elif(*items)`: the first true test adds its message and stops;
      a value that is no level raises when it is reached. */
  function ElifOn(s: Snapshot, items: seq<(Test, LevelArg, Option<string>)>): Effect
    decreases |items|
  {
    if items == [] then (s, Ok(()))
    else
      var (test, a, msg) := items[0];
      var m := if msg.None? then test.text else msg.value;
      match a
      case NotALevel => (s, Err(NotALevelError))
      case Given(l) =>
        if test.truthy then
          var s1 := AddIn(s, l, m);
          (s1.(level := NextLevel(s1.level, l)), Ok(()))
        else ElifOn(s, items[1..])
  }

  /** Only the message of the first true test is added; the items after it
      are not looked at. */
  lemma {:induction false} ElifFirstTrue(s: Snapshot, items: seq<(Test, LevelArg, Option<string>)>, k: nat)
    requires k < |items| && items[k].0.truthy && items[k].1.Given?
    requires forall j :: 0 <= j < k ==> !items[j].0.truthy && items[j].1.Given?
    ensures var (test, a, msg) := items[k];
            ElifOn(s, items) == (AddIn(s, a.level, if msg.None? then test.text else msg.value), Ok(()))
  {
    if k == 0 {
      NextLevelIdempotent(s.level, items[0].1.level);
    } else {
      ElifFirstTrue(s, items[1..], k - 1);
    }
  }

  /** With no true test nothing is added. */
  lemma {:induction false} ElifNoneTrue(s: Snapshot, items: seq<(Test, LevelArg, Option<string>)>)
    requires forall j :: 0 <= j < |items| ==> !items[j].0.truthy && items[j].1.Given?
    decreases |items|
    ensures ElifOn(s, items) == (s, Ok(()))
  {
    if items != [] {
      ElifNoneTrue(s, items[1..]);
    }
  }

  /** `add_begin(msg)`. */
  function BeginOn(s: Snapshot, msg: string): Snapshot
  {
    s.(beginMsgs := s.beginMsgs + [msg])
  }

  /** `add_more(msg)`: an empty message is not added. */
  function MoreOn(s: Snapshot, msg: string): Snapshot
  {
    if msg == "" then s else s.(moreMsgs := s.moreMsgs + [msg])
  }

  /** `add_end(msg)`. */
  function EndOn(s: Snapshot, msg: string): Snapshot
  {
    s.(endMsgs := s.endMsgs + [msg])
  }

  /** `add_perf_data(data)`, with `str(data)` given. */
  function PerfOn(s: Snapshot, data: string): Snapshot
  {
    s.(perfItems := s.perfItems + [data])
  }

  /** `set_synopsis(msg)`. */
  function SynopsisOn(s: Snapshot, msg: string): Snapshot
  {
    s.(synopsis := Some(msg))
  }
}
