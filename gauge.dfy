// `GaugeMixin` (naghelp/mixins.py): checks of a gauge against thresholds
// and against a reference value ("etalon") kept in the host's persistent
// data.  Each check writes the gauge into the response's more-messages
// section and adds at most one level message.  Gauges are integers here.
module Gauge {
  import opened Results
  import opened Text
  import opened Response
  import opened ResponseObject
  import opened HostData

  // ---------------------------------------------------------------- reading a gauge

  /** A character of `[\d,\.]`. */
  predicate IsNumChar(c: char) { IsDigit(c) || c == ',' || c == '.' }

  /** The longest prefix of `s` made of `[\d,\.]`. */
  function NumRun(s: string): (r: string)
    ensures |r| <= |s| && r == s[..|r|]
    ensures forall k :: 0 <= k < |r| ==> IsNumChar(r[k])
    ensures |r| < |s| ==> !IsNumChar(s[|r|])
  {
    if s == [] || !IsNumChar(s[0]) then ""
    else
      var rest := NumRun(s[1..]);
      assert s[1..][..|rest|] == s[1..|rest| + 1];
      [s[0]] + rest
  }

  /** The shape of a match of `-?[\d,\.]+`. */
  predicate NumberShaped(t: string)
  {
    |t| >= 1 && (t[0] == '-' ==> |t| >= 2)
    && forall k :: 0 <= k < |t| && (k > 0 || t[0] != '-') ==> IsNumChar(t[k])
  }

  /** A match of `-?[\d,\.]+` can start at index `i` of `s`. */
  predicate StartsNumber(s: string, i: int)
  {
    0 <= i < |s| && (IsNumChar(s[i]) || (s[i] == '-' && i + 1 < |s| && IsNumChar(s[i + 1])))
  }

  /** `r` is the match the regular expression search finds, at `i`: no match
      starts further left, the optional `-` is taken when present, and the
      run of `[\d,\.]` cannot be extended. */
  predicate LeftmostMatch(s: string, r: string, i: int)
  {
    StartsNumber(s, i) && OccursAt(s, r, i) && NumberShaped(r)
    && (forall j :: 0 <= j < i ==> !StartsNumber(s, j))
    && (i + |r| == |s| || !IsNumChar(s[i + |r|]))
  }

  /** A match in `s[1..]` is one in `s` when no match starts at `s[0]`. */
  lemma LeftmostMatchShift(s: string, r: string, i: int)
    requires |s| > 0 && !StartsNumber(s, 0) && LeftmostMatch(s[1..], r, i)
    ensures LeftmostMatch(s, r, i + 1)
  {
    assert s[i + 1..i + 1 + |r|] == s[1..][i..i + |r|];
    assert StartsNumber(s, i + 1);
    forall j | 0 <= j < i + 1 ensures !StartsNumber(s, j) {
      if j > 0 { assert !StartsNumber(s[1..], j - 1); }
    }
  }

  /** `find_pattern(s, r'(-?[\d,\.]+)')`: the leftmost, longest match, or
      `''` when `s` has no digit, comma or dot. */
  function NumberToken(s: string): (r: string)
    decreases |s|
    ensures r == "" <==> forall k :: 0 <= k < |s| ==> !IsNumChar(s[k])
    ensures r != "" ==> exists i :: LeftmostMatch(s, r, i)
  {
    if s == [] then ""
    else if IsNumChar(s[0]) then
      var r := NumRun(s);
      assert OccursAt(s, r, 0);
      assert LeftmostMatch(s, r, 0);
      r
    else if s[0] == '-' && |s| > 1 && IsNumChar(s[1]) then
      var run := NumRun(s[1..]);
      var r := "-" + run;
      assert s[..|r|] == r by { assert s[1..][..|run|] == s[1..|run| + 1]; }
      assert OccursAt(s, r, 0);
      assert |r| < |s| ==> s[|r|] == s[1..][|run|];
      assert LeftmostMatch(s, r, 0);
      r
    else
      var r := NumberToken(s[1..]);
      assert forall k :: 1 <= k < |s| ==> s[1..][k - 1] == s[k];
      assert r != "" ==> exists i :: LeftmostMatch(s, r, i) by {
        if r != "" {
          var i :| LeftmostMatch(s[1..], r, i);
          LeftmostMatchShift(s, r, i);
        }
      }
      r
  }

  /** A text left without `.` once `,` is read as `.` had neither. */
  lemma NoDotLeft(tok: string)
    requires '.' !in ReplaceChar(tok, ',', '.')
    ensures ReplaceChar(tok, ',', '.') == tok && ',' !in tok
  {
    var t := ReplaceChar(tok, ',', '.');
    forall k | 0 <= k < |tok| ensures t[k] == tok[k] && tok[k] != ',' {
      assert t[k] in t;
    }
  }

  /** What a gauge value is compared as: nothing (no number in a text, or
      not a number at all), an integer, or a decimal text that Python turns
      into a `float`. */
  datatype Reading = NoTest | Whole(n: int) | Fraction(text: string)

  /** `int(t)` of a `-?\d+` text. */
  function TokenInt(t: string): int
    requires NumberShaped(t) && '.' !in t && ',' !in t
  {
    assert forall k :: 0 <= k < |t| && (k > 0 || t[0] != '-') ==> IsDigit(t[k]);
    if t[0] == '-' then -(DigitsValue(t[1..]) as int) else DigitsValue(t)
  }

  /** Python's `int()` reads such a text as `TokenInt` does. */
  lemma TokenIntIsInt(t: string)
    requires NumberShaped(t) && '.' !in t && ',' !in t
    ensures ParseInt(t) == Some(TokenInt(t))
  {
    assert !IsWhite(t[0]) && !IsWhite(t[|t| - 1]);
    StripOfTrimmed(t);
    if t[0] == '-' {
      assert forall k :: 0 <= k < |t[1..]| ==> IsDigit(t[1..][k]) by {
        assert forall k :: 0 <= k < |t[1..]| ==> t[1..][k] == t[k + 1];
      }
    }
  }

  /** `gauge_response_threshold`'s reading of its value: a text gives its
      first number (`NumberToken`) with `,` read as `.`, a whole number when
      no `.` is left; an integer is itself. */
  function ReadingOf(v: Value): (r: Reading)
    ensures v.Int? ==> r == Whole(v.number)
    ensures v.Null? || v.NoAttr? ==> r == NoTest
    ensures v.Str? && r.NoTest? ==> forall k :: 0 <= k < |v.text| ==> !IsNumChar(v.text[k])
    ensures v.Str? ==>
              var tok := NumberToken(v.text);
              var t := ReplaceChar(tok, ',', '.');
              (r.NoTest? <==> t == "")
              && ('.' in t ==> r == Fraction(t))
              && (t != "" && '.' !in t ==> t == tok && NumberShaped(t) && ',' !in t && r == Whole(TokenInt(t)))
  {
    match v
    case Int(i) => Whole(i)
    case Str(s) =>
      var tok := NumberToken(s);
      var t := ReplaceChar(tok, ',', '.');
      if t == "" then NoTest
      else if '.' in t then Fraction(t)
      else
        NoDotLeft(tok);
        Whole(TokenInt(t))
    case _ => NoTest
  }

  // ---------------------------------------------------------------- thresholds

  /** The four thresholds; `None` is one not given. */
  datatype Thresholds = Thresholds(warnMin: Option<int>, critMin: Option<int>, warnMax: Option<int>,
                                   critMax: Option<int>)

  datatype Bound = CritMin | WarnMin | CritMax | WarnMax
  {
    predicate IsMin() { this == CritMin || this == WarnMin }

    /** The order in which the bounds are tested. */
    function Rank(): nat
    {
      match this
      case CritMin => 0
      case WarnMin => 1
      case CritMax => 2
      case WarnMax => 3
    }

    function Level(): Level
    {
      if this == CritMin || this == CritMax then CRITICAL else WARNING
    }
  }

  function Limit(th: Thresholds, b: Bound): Option<int>
  {
    match b
    case CritMin => th.critMin
    case WarnMin => th.warnMin
    case CritMax => th.critMax
    case WarnMax => th.warnMax
  }

  /** A minimum is reached at or below it, a maximum at or above it. */
  predicate Hits(th: Thresholds, b: Bound, v: int)
  {
    Limit(th, b).Some? && (if b.IsMin() then v <= Limit(th, b).value else v >= Limit(th, b).value)
  }

  /** The bound `gauge_response_threshold` reports: the first one reached
      in the order `crit_min`, `warn_min`, `crit_max`, `warn_max`. */
  function FirstHit(th: Thresholds, v: int): (r: Option<Bound>)
    ensures r.None? <==> forall b: Bound :: !Hits(th, b, v)
    ensures r.Some? ==> Hits(th, r.value, v) && forall b: Bound :: b.Rank() < r.value.Rank() ==> !Hits(th, b, v)
  {
    if Hits(th, CritMin, v) then Some(CritMin)
    else if Hits(th, WarnMin, v) then Some(WarnMin)
    else if Hits(th, CritMax, v) then Some(CritMax)
    else if Hits(th, WarnMax, v) then Some(WarnMax)
    else None
  }

  /** With all four thresholds and `crit_min <= warn_min < warn_max <=
      crit_max`, a gauge is CRITICAL outside the critical range, WARNING
      outside the warning range only, and raises nothing inside it. */
  lemma ThresholdBands(th: Thresholds, v: int)
    requires th.warnMin.Some? && th.critMin.Some? && th.warnMax.Some? && th.critMax.Some?
    requires th.critMin.value <= th.warnMin.value < th.warnMax.value <= th.critMax.value
    ensures FirstHit(th, v).None? <==> th.warnMin.value < v < th.warnMax.value
    ensures FirstHit(th, v).Some? && FirstHit(th, v).value.Level() == CRITICAL <==>
              v <= th.critMin.value || v >= th.critMax.value
  {
  }

  /** The message of a reached bound. */
  function AlertText(name: string, v: int, th: Thresholds, b: Bound): string
    requires Limit(th, b).Some?
  {
    name + " : " + IntToString(v) + (if b.IsMin() then " <= MIN " else " >= MAX ") + Name(b.Level())
    + " (" + IntToString(Limit(th, b).value) + ")"
  }

  /** The more-message of a gauge: `label : value`. */
  function GaugeLine(name: string, v: Value): string
  {
    name + " : " + ValueText(v)
  }

  /** `gauge_response_threshold(id, label, value, ...)` on the response. */
  function ThresholdOn(s: Snapshot, name: string, value: Value, th: Thresholds): Snapshot
  {
    var s1 := MoreOn(s, GaugeLine(name, value));
    var r := ReadingOf(value);
    if r.Whole? && FirstHit(th, r.n).Some? then
      AddIn(s1, FirstHit(th, r.n).value.Level(), AlertText(name, r.n, th, FirstHit(th, r.n).value))
    else s1
  }

  /** The gauge line always goes to the more-messages section first; at
      most one level message follows, only for a number reaching a bound,
      at that bound's level; nothing else changes. */
  lemma ThresholdOnEffect(s: Snapshot, name: string, value: Value, th: Thresholds)
    ensures var r := ThresholdOn(s, name, value, th);
            && r.moreMsgs == s.moreMsgs + [GaugeLine(name, value)]
            && r.beginMsgs == s.beginMsgs && r.endMsgs == s.endMsgs && r.perfItems == s.perfItems
            && r.synopsis == s.synopsis && r.sublevel == s.sublevel && r.defaultLevel == s.defaultLevel
            && (ReadingOf(value).Whole? && FirstHit(th, ReadingOf(value).n).Some? ==>
                  var b := FirstHit(th, ReadingOf(value).n).value;
                  r.levelMsgs == s.levelMsgs.Append(b.Level(), Message(AlertText(name, ReadingOf(value).n, th, b)))
                  && r.level == NextLevel(s.level, b.Level()))
            && (!(ReadingOf(value).Whole? && FirstHit(th, ReadingOf(value).n).Some?) ==>
                  r.levelMsgs == s.levelMsgs && r.level == s.level)
  {
    assert GaugeLine(name, value) != "";
  }

  /** The three examples of the `gauge_response_threshold` docstring, with
      `warn_min=0, crit_min=10, warn_max=70, crit_max=100`. */
  lemma ThresholdExamples()
    ensures var th := Thresholds(Some(0), Some(10), Some(70), Some(100));
            && FirstHit(th, 90) == Some(WarnMax)
            && FirstHit(th, -10) == Some(CritMin)
            && FirstHit(th, 110) == Some(CritMax)
  {
  }

  /** Leading characters that start no number are skipped. */
  lemma {:induction false} NumberTokenSkip(s: string, n: nat)
    requires n <= |s|
    requires forall k :: 0 <= k < n ==> !IsNumChar(s[k]) && s[k] != '-'
    decreases n
    ensures NumberToken(s) == NumberToken(s[n..])
  {
    if n > 0 {
      assert s[1..][n - 1..] == s[n..];
      NumberTokenSkip(s[1..], n - 1);
    }
  }

  // ---------------------------------------------------------------- reference values

  /** `gauge_response_etalon_change`, `_down` and `_up`. */
  datatype EtalonKind = Change | Down | Up

  function EtalonName(id: string): string { id + "_etalon" }

  /** Python 2's `<` on two texts: lexicographic on characters. */
  predicate TextLess(a: string, b: string)
    decreases |a|
  {
    if a == [] then b != []
    else if b == [] then false
    else a[0] < b[0] || (a[0] == b[0] && TextLess(a[1..], b[1..]))
  }

  lemma {:induction false} TextLessAsymmetric(a: string, b: string)
    decreases |a|
    ensures !(TextLess(a, b) && TextLess(b, a))
  {
    if a != [] && b != [] {
      TextLessAsymmetric(a[1..], b[1..]);
    }
  }

  lemma {:induction false} TextLessIrreflexive(a: string)
    decreases |a|
    ensures !TextLess(a, a)
  {
    if a != [] {
      TextLessIrreflexive(a[1..]);
    }
  }

  /** Python 2's `<` on host values: `None` below everything, numbers below
      other values, texts in text order; `NoAttr` is taken to compare as an
      object of a type named before `str`. */
  predicate PyLess(a: Value, b: Value)
  {
    match (a, b)
    case (Null, Null) => false
    case (Null, _) => true
    case (_, Null) => false
    case (Int(x), Int(y)) => x < y
    case (Int(_), _) => true
    case (_, Int(_)) => false
    case (Str(x), Str(y)) => TextLess(x, y)
    case (NoAttr, Str(_)) => true
    case (_, _) => false
  }

  /** `<` is a strict order: never both ways, never a value below itself. */
  lemma PyLessStrict(a: Value, b: Value)
    ensures !(PyLess(a, b) && PyLess(b, a))
    ensures !PyLess(a, a)
  {
    if a.Str? && b.Str? {
      TextLessAsymmetric(a.text, b.text);
    }
    if a.Str? {
      TextLessIrreflexive(a.text);
    }
  }

  /** Whether the kind of check reports `value` against the reference. */
  predicate Flags(kind: EtalonKind, value: Value, etalon: Value)
  {
    match kind
    case Change => value != etalon
    case Down => PyLess(value, etalon)
    case Up => PyLess(etalon, value)
  }

  /** Whether the kind of check keeps `value` as the new reference. */
  predicate Stores(kind: EtalonKind, value: Value)
  {
    match kind
    case Change => value != NoAttr && value != Null
    case Down => value.Int?
    case Up => value.Int?
  }

  /** A value below or above the reference is also a changed one; for two
      integers a changed value is below or above. */
  lemma FlagsRelated(value: Value, etalon: Value)
    ensures Flags(Down, value, etalon) || Flags(Up, value, etalon) ==> Flags(Change, value, etalon)
    ensures !(Flags(Down, value, etalon) && Flags(Up, value, etalon))
    ensures value.Int? && etalon.Int? && Flags(Change, value, etalon) ==>
              Flags(Down, value, etalon) || Flags(Up, value, etalon)
  {
    PyLessStrict(value, etalon);
  }

  /** The message of a reported change. */
  function EtalonText(kind: EtalonKind, name: string, value: Value, etalon: Value): string
  {
    name + " : actual value (" + ValueText(value) + ")"
    + (match kind
       case Change => " has changed (was " + ValueText(etalon) + ")"
       case Down => " is less than the reference value (" + ValueText(etalon) + ")"
       case Up => " is more than the reference value (" + ValueText(etalon) + ")")
  }

  /** The reference kept under `id`, `None` when there is none. */
  function Etalon(items: map<string, Value>, id: string): Value
  {
    if EtalonName(id) in items then items[EtalonName(id)] else Null
  }

  /** A reference check on the response and the host's entries. */
  function EtalonOn(kind: EtalonKind, s: Snapshot, items: map<string, Value>, id: string, name: string,
                    value: Value, level: Level): (Snapshot, map<string, Value>)
  {
    var s1 := MoreOn(s, GaugeLine(name, value));
    var e := Etalon(items, id);
    var s2 := if e != Null && Flags(kind, value, e) then AddIn(s1, level, EtalonText(kind, name, value, e)) else s1;
    (s2, if Stores(kind, value) then items[EtalonName(id) := value] else items)
  }

  /** The gauge line goes to the more-messages section; a level message is
      added iff there is a reference and the check reports the value
      against it; the reference becomes the value iff the check keeps it,
      and no other entry of the host changes. */
  lemma EtalonOnEffect(kind: EtalonKind, s: Snapshot, items: map<string, Value>, id: string, name: string,
                       value: Value, level: Level)
    ensures var (r, h) := EtalonOn(kind, s, items, id, name, value, level);
            var e := Etalon(items, id);
            && r.moreMsgs == s.moreMsgs + [GaugeLine(name, value)]
            && (EtalonName(id) !in items ==> r.levelMsgs == s.levelMsgs && r.level == s.level)
            && (r.levelMsgs != s.levelMsgs <==> e != Null && Flags(kind, value, e))
            && (e != Null && Flags(kind, value, e) ==>
                  r.levelMsgs == s.levelMsgs.Append(level, Message(EtalonText(kind, name, value, e))))
            && (Stores(kind, value) ==> Etalon(h, id) == value)
            && (!Stores(kind, value) ==> h == items)
            && (forall k :: k != EtalonName(id) ==> (k in h <==> k in items) && (k in items ==> h[k] == items[k]))
  {
    EtalonOnMessages(kind, s, items, id, name, value, level);
    EtalonOnReference(kind, s, items, id, name, value, level);
  }

  /** The response half of `EtalonOnEffect`. */
  lemma EtalonOnMessages(kind: EtalonKind, s: Snapshot, items: map<string, Value>, id: string, name: string,
                         value: Value, level: Level)
    ensures var r := EtalonOn(kind, s, items, id, name, value, level).0;
            var e := Etalon(items, id);
            && r.moreMsgs == s.moreMsgs + [GaugeLine(name, value)]
            && (EtalonName(id) !in items ==> r.levelMsgs == s.levelMsgs && r.level == s.level)
            && (r.levelMsgs != s.levelMsgs <==> e != Null && Flags(kind, value, e))
            && (e != Null && Flags(kind, value, e) ==>
                  r.levelMsgs == s.levelMsgs.Append(level, Message(EtalonText(kind, name, value, e))))
  {
    var e := Etalon(items, id);
    assert GaugeLine(name, value) != "";
    if e != Null && Flags(kind, value, e) {
      var l := s.levelMsgs.Append(level, Message(EtalonText(kind, name, value, e)));
      assert |l.Get(level)| == |s.levelMsgs.Get(level)| + 1;
    }
  }

  /** The host half of `EtalonOnEffect`. */
  lemma EtalonOnReference(kind: EtalonKind, s: Snapshot, items: map<string, Value>, id: string, name: string,
                          value: Value, level: Level)
    ensures var h := EtalonOn(kind, s, items, id, name, value, level).1;
            && (Stores(kind, value) ==> Etalon(h, id) == value)
            && (!Stores(kind, value) ==> h == items)
            && (forall k :: k != EtalonName(id) ==> (k in h <==> k in items) && (k in items ==> h[k] == items[k]))
  {
  }

  /** After a value is kept as the reference, checking the same value again
      reports nothing. */
  lemma EtalonSettles(kind: EtalonKind, s: Snapshot, items: map<string, Value>, id: string, name: string,
                      value: Value, level: Level)
    requires Stores(kind, value)
    ensures var (s1, h1) := EtalonOn(kind, s, items, id, name, value, level);
            EtalonOn(kind, s1, h1, id, name, value, level).0.levelMsgs == s1.levelMsgs
  {
    PyLessStrict(value, value);
  }

  // ---------------------------------------------------------------- the mixin

  /** The gauge checks run over consecutive pairs `(label, value)`, the
      `i`-th with the id `id + str(i)`. */
  function ThresholdListOn(s: Snapshot, pairs: seq<(string, Value)>, th: Thresholds, n: nat): Snapshot
    requires n <= |pairs|
  {
    if n == 0 then s else ThresholdOn(ThresholdListOn(s, pairs, th, n - 1), pairs[n - 1].0, pairs[n - 1].1, th)
  }

  function EtalonListOn(kind: EtalonKind, st: (Snapshot, map<string, Value>), id: string,
                        pairs: seq<(string, Value)>, level: Level, n: nat): (Snapshot, map<string, Value>)
    requires n <= |pairs|
  {
    if n == 0 then st
    else
      var prev := EtalonListOn(kind, st, id, pairs, level, n - 1);
      EtalonOn(kind, prev.0, prev.1, id + NatToString(n - 1), pairs[n - 1].0, pairs[n - 1].1, level)
  }

  /** One more pair runs one more etalon check on the state so far. */
  lemma EtalonListOnStep(kind: EtalonKind, st: (Snapshot, map<string, Value>), id: string,
                         pairs: seq<(string, Value)>, level: Level, n: nat)
    requires n < |pairs|
    ensures var prev := EtalonListOn(kind, st, id, pairs, level, n);
            EtalonListOn(kind, st, id, pairs, level, n + 1)
            == EtalonOn(kind, prev.0, prev.1, id + NatToString(n), pairs[n].0, pairs[n].1, level)
  {
  }

  /** Distinct positions of a list keep their references under distinct
      names. */
  lemma ListEtalonNamesDistinct(id: string, i: nat, j: nat)
    requires i != j
    ensures EtalonName(id + NatToString(i)) != EtalonName(id + NatToString(j))
  {
    if EtalonName(id + NatToString(i)) == EtalonName(id + NatToString(j)) {
      var a := id + NatToString(i);
      var b := id + NatToString(j);
      assert a == (a + "_etalon")[..|a|];
      assert |a| == |b|;
      assert a == b;
      assert NatToString(i) == a[|id|..] == NatToString(j);
      DigitsValueOfNatToString(i);
      DigitsValueOfNatToString(j);
      assert false;
    }
  }

  /** The plugin's response and host, on which the mixin's methods work. */
  class GaugeMixin {
    const response: PluginResponse
    const host: Host

    constructor(response: PluginResponse, host: Host)
      ensures this.response == response && this.host == host
    {
      this.response := response;
      this.host := host;
    }

    /** `gauge_response_threshold(id, label, value, warn_min, crit_min,
      warn_max, crit_max)`. */
    method Threshold(id: string, name: string, value: Value, th: Thresholds)
      modifies response
      ensures response.State() == ThresholdOn(old(response.State()), name, value, th)
    {
      response.AddMore(name + " : " + ValueText(value));
      var reading := ReadingOf(value);
      if reading.Whole? {
        ReportThreshold(name, reading.n, th);
      }
    }

    /** The tests of `gauge_response_threshold` on a number: the first bound
      reached adds its message at its level. */
    method ReportThreshold(name: string, v: int, th: Thresholds)
      modifies response
      ensures response.State() == if FirstHit(th, v).Some? then
                                    AddIn(old(response.State()), FirstHit(th, v).value.Level(),
                                          AlertText(name, v, th, FirstHit(th, v).value))
                                  else old(response.State())
    {
      if th.critMin.Some? && v <= th.critMin.value {
        var _ := response.Add(Given(CRITICAL), AlertText(name, v, th, CritMin));
      } else if th.warnMin.Some? && v <= th.warnMin.value {
        var _ := response.Add(Given(WARNING), AlertText(name, v, th, WarnMin));
      } else if th.critMax.Some? && v >= th.critMax.value {
        var _ := response.Add(Given(CRITICAL), AlertText(name, v, th, CritMax));
      } else if th.warnMax.Some? && v >= th.warnMax.value {
        var _ := response.Add(Given(WARNING), AlertText(name, v, th, WarnMax));
      }
    }

    /** `gauge_response_threshold_list(id, label_values, ...)`. */
    method ThresholdList(id: string, pairs: seq<(string, Value)>, th: Thresholds)
      modifies response
      ensures response.State() == ThresholdListOn(old(response.State()), pairs, th, |pairs|)
    {
      var i := 0;
      ghost var s0 := response.State();
      while i < |pairs|
        invariant 0 <= i <= |pairs|
        invariant response.State() == ThresholdListOn(s0, pairs, th, i)
      {
        Threshold(id + NatToString(i), pairs[i].0, pairs[i].1, th);
        i := i + 1;
      }
    }

    /** `gauge_response_etalon_change`, `_down` or `_up(id, label, value,
      level)`, as `kind` says. */
    method EtalonCheck(kind: EtalonKind, id: string, name: string, value: Value, level: Level)
      modifies response, host
      ensures (response.State(), host.items) == EtalonOn(kind, old(response.State()), old(host.items), id, name, value, level)
      ensures unchanged(host`paramsFromEnv, host`paramsFromCmd, host`paramsFromDb)
    {
      response.AddMore(name + " : " + ValueText(value));
      var etalonName := EtalonName(id);
      var etalon := host.Get(etalonName, Null);
      assert etalon == Etalon(host.items, id);
      ReportEtalon(kind, name, value, etalon, level);
      if Stores(kind, value) {
        host.Set(etalonName, value);
      }
    }

    /** The test of an etalon check: a message at `level` when there is a
      reference and the value departs from it as `kind` says. */
    method ReportEtalon(kind: EtalonKind, name: string, value: Value, etalon: Value, level: Level)
      modifies response
      ensures response.State() == if etalon != Null && Flags(kind, value, etalon) then
                                    AddIn(old(response.State()), level, EtalonText(kind, name, value, etalon))
                                  else old(response.State())
    {
      if etalon != Null && Flags(kind, value, etalon) {
        var _ := response.Add(Given(level), EtalonText(kind, name, value, etalon));
      }
    }

    /** `gauge_response_etalon_change_list`, `_down_list` or `_up_list(id,
      label_values, level)`, as `kind` says. */
    method EtalonList(kind: EtalonKind, id: string, pairs: seq<(string, Value)>, level: Level)
      modifies response, host
      ensures (response.State(), host.items) ==
              EtalonListOn(kind, (old(response.State()), old(host.items)), id, pairs, level, |pairs|)
      ensures unchanged(host`paramsFromEnv, host`paramsFromCmd, host`paramsFromDb)
    {
      var i := 0;
      while i < |pairs|
        invariant 0 <= i <= |pairs|
        invariant (response.State(), host.items) ==
                  EtalonListOn(kind, (old(response.State()), old(host.items)), id, pairs, level, i)
        invariant unchanged(host`paramsFromEnv, host`paramsFromCmd, host`paramsFromDb)
      {
        EtalonCheck(kind, id + NatToString(i), pairs[i].0, pairs[i].1, level);
        EtalonListOnStep(kind, (old(response.State()), old(host.items)), id, pairs, level, i);
        i := i + 1;
      }
    }
  }
}
