// `PerfData` (naghelp/perf.py): one item of Nagios performance data, whose
// property setters check the value, the bounds and the unit before storing
// them, and whose text is `label=value<uom>;warn;crit;min;max`.  Python values
// are given here as the text `str()` makes of them; `None` is `None`.
module Perf {
  import opened Results
  import opened Text

  // ---------------------------------------------------------------- validation

  /** A character of the class `[-0-9.]`. */
  predicate IsValueChar(c: char) { c == '-' || c == '.' || IsDigit(c) }

  predicate AllValueChars(t: string) { forall k :: 0 <= k < |t| ==> IsValueChar(t[k]) }

  /** `_is_valid_value`: `None`, or a text that `re.match(r"[-0-9.]+$")`
      accepts.  Python's `$` also matches just before a final newline, so
      one trailing `\n` is allowed. */
  function IsValidValue(v: Option<string>): (b: bool)
    ensures b <==> v.None? || exists t :: t != [] && AllValueChars(t) && (v.value == t || v.value == t + "\n")
  {
    if v.None? then true
    else
      var s := v.value;
      var t := if s != [] && s[|s| - 1] == '\n' then s[..|s| - 1] else s;
      assert s != [] && s[|s| - 1] == '\n' ==> s == t + "\n";
      assert forall u :: u != [] && AllValueChars(u) && (s == u || s == u + "\n") ==> u == t by {
        forall u | u != [] && AllValueChars(u) && (s == u || s == u + "\n")
          ensures u == t
        {
          if s == u {
            assert s[|s| - 1] == u[|u| - 1];
            assert IsValueChar(u[|u| - 1]);
          } else {
            assert s[..|s| - 1] == u;
          }
        }
      }
      t != [] && AllValueChars(t)
  }

  /** `str(i)` of any integer is a valid value (`perf.value = 99`). */
  lemma IntIsValidValue(i: int)
    ensures IsValidValue(Some(IntToString(i)))
  {
    var t := IntToString(i);
    var n := NatToString(if i < 0 then -i else i);
    assert forall k :: 0 <= k < |n| ==> IsValueChar(n[k]);
    if i < 0 {
      assert forall k :: 1 <= k < |t| ==> t[k] == n[k - 1];
    }
    assert AllValueChars(t);
  }

  /** The units `uom` accepts, compared in lower case. */
  const UomChoices: seq<string> := ["", "s", "%", "b", "kb", "mb", "gb", "tb", "c"]

  /** The setter of `uom`: `None`, or a unit of `UomChoices` in any case. */
  predicate ValidUom(u: Option<string>)
  {
    u.None? || Lower(u.value) in UomChoices
  }

  lemma {:induction false} LowerIdempotent(s: string)
    ensures Lower(Lower(s)) == Lower(s)
  {
    assert forall k :: 0 <= k < |s| ==> LowerChar(LowerChar(s[k])) == LowerChar(s[k]);
  }

  /** The unit check ignores case. */
  lemma UomCaseInsensitive(u: string)
    ensures ValidUom(Some(u)) <==> ValidUom(Some(Lower(u)))
  {
    LowerIdempotent(u);
  }

  /** Every accepted unit is at most two characters long. */
  lemma UomShort(u: string)
    ensures ValidUom(Some(u)) ==> |u| <= 2
  {
    assert forall c :: c in UomChoices ==> |c| <= 2;
  }

  const ValueNoneError := "value must not be None"
  const ValueClassError := "value must be in class [-0-9.]"
  const MinvalClassError := "minval must be in class [-0-9.]"
  const MaxvalClassError := "maxval must be in class [-0-9.]"
  const UomError := "uom must be in: ['', 's', '%', 'b', 'kb', 'mb', 'gb', 'tb', 'c']"

  /** The `ValueError` the setter of `value` raises, if any. */
  function ValueCheck(v: Option<string>): (r: Option<string>)
    ensures r.None? <==> v.Some? && IsValidValue(v)
  {
    if v.None? then Some(ValueNoneError)
    else if !IsValidValue(v) then Some(ValueClassError)
    else None
  }

  /** The `ValueError` of the setter of `uom`, if any. */
  function UomCheck(u: Option<string>): (r: Option<string>)
    ensures r.None? <==> ValidUom(u)
  {
    if ValidUom(u) then None else Some(UomError)
  }

  /** The `ValueError` of the setter of `minval` or `maxval`, if any. */
  function BoundCheck(v: Option<string>, error: string): (r: Option<string>)
    ensures r.None? <==> IsValidValue(v)
    ensures r.Some? ==> r.value == error
  {
    if IsValidValue(v) then None else Some(error)
  }

  /** The first `ValueError` of `PerfData(...)`, whose `__init__` sets the
      label, value, uom, warn, crit, minval and maxval in that order. */
  function CreateError(value: Option<string>, uom: Option<string>, minval: Option<string>,
                       maxval: Option<string>): (r: Option<string>)
    ensures r.None? <==> value.Some? && IsValidValue(value) && ValidUom(uom)
                         && IsValidValue(minval) && IsValidValue(maxval)
    ensures r.Some? && value.Some? && IsValidValue(value) && ValidUom(uom) ==>
              r.value in {MinvalClassError, MaxvalClassError}
  {
    if ValueCheck(value).Some? then ValueCheck(value)
    else if UomCheck(uom).Some? then UomCheck(uom)
    else if BoundCheck(minval, MinvalClassError).Some? then BoundCheck(minval, MinvalClassError)
    else BoundCheck(maxval, MaxvalClassError)
  }

  // ---------------------------------------------------------------- label quoting

  /** A label with `=`, a space or `'` has to be quoted. */
  predicate NeedsQuotes(name: string) { '=' in name || ' ' in name || '\'' in name }

  /** `value.replace("'", "''")`. */
  function DoubleQuotes(s: string): (r: string)
    ensures |r| >= |s|
    ensures forall c :: c != '\'' ==> (c in r <==> c in s)
  {
    if s == [] then ""
    else (if s[0] == '\'' then "''" else [s[0]]) + DoubleQuotes(s[1..])
  }

  /** The inverse of `DoubleQuotes`: each `''` read back as one `'`. */
  function UndoubleQuotes(s: string): string
    decreases |s|
  {
    if s == [] then ""
    else if |s| >= 2 && s[0] == '\'' && s[1] == '\'' then "'" + UndoubleQuotes(s[2..])
    else [s[0]] + UndoubleQuotes(s[1..])
  }

  lemma {:induction false} UndoubleDouble(s: string)
    decreases |s|
    ensures UndoubleQuotes(DoubleQuotes(s)) == s
  {
    if s != [] {
      var rest := DoubleQuotes(s[1..]);
      UndoubleDouble(s[1..]);
      if s[0] == '\'' {
        assert DoubleQuotes(s) == "''" + rest;
        assert ("''" + rest)[2..] == rest;
      } else {
        assert DoubleQuotes(s) == [s[0]] + rest;
        assert ([s[0]] + rest)[1..] == rest;
      }
      assert s == [s[0]] + s[1..];
    }
  }

  /** `_quote_if_needed(label)`: a label that needs it is wrapped in single
      quotes with each `'` doubled; any other label is left as it is. */
  function QuoteIfNeeded(name: string): (r: string)
    ensures r == name <==> !NeedsQuotes(name)
    ensures NeedsQuotes(name) ==> |r| >= 2 && r[0] == '\'' && r[|r| - 1] == '\''
    ensures forall c :: c != '\'' ==> (c in r <==> c in name)
  {
    if NeedsQuotes(name) then "'" + DoubleQuotes(name) + "'" else name
  }

  /** Reading a label back: the quotes removed and each `''` made `'`. */
  function Unquote(s: string): string
  {
    if |s| >= 2 && s[0] == '\'' && s[|s| - 1] == '\'' then UndoubleQuotes(s[1..|s| - 1]) else s
  }

  /** Quoting loses nothing: the label can be read back. */
  lemma QuoteRoundTrip(name: string)
    ensures Unquote(QuoteIfNeeded(name)) == name
  {
    if NeedsQuotes(name) {
      var d := DoubleQuotes(name);
      assert ("'" + d + "'")[1..|d| + 1] == d;
      UndoubleDouble(name);
    }
  }

  // ---------------------------------------------------------------- text

  /** A performance-data item as a value; its optional fields are `None`
      when not given. */
  datatype Item = Item(name: string, value: string, uom: Option<string>, warn: Option<string>,
                       crit: Option<string>, minval: Option<string>, maxval: Option<string>)

  /** `x or ''` on an optional text. */
  function OrEmpty(v: Option<string>): string
  {
    if v.Some? then v.value else ""
  }

  /** `str(perf)`: `label=value<uom>;warn;crit;min;max`, optional fields
      empty when not given. */
  function Render(p: Item): string
  {
    QuoteIfNeeded(p.name) + "=" + p.value + OrEmpty(p.uom) + ";" + OrEmpty(p.warn) + ";"
    + OrEmpty(p.crit) + ";" + OrEmpty(p.minval) + ";" + OrEmpty(p.maxval)
  }

  /** The five `;`-separated fields of the text. */
  function Fields(p: Item): seq<string>
  {
    [QuoteIfNeeded(p.name) + "=" + p.value + OrEmpty(p.uom), OrEmpty(p.warn), OrEmpty(p.crit),
     OrEmpty(p.minval), OrEmpty(p.maxval)]
  }

  /** Five texts joined by `;`, as the `%`-format of `__str__` writes them. */
  lemma {:induction false} JoinFive(a: string, b: string, c: string, d: string, e: string)
    ensures Join([a, b, c, d, e], ";") == a + ";" + b + ";" + c + ";" + d + ";" + e
  {
    var f := [a, b, c, d, e];
    assert f[1..] == [b, c, d, e] && f[2..] == [c, d, e] && f[3..] == [d, e] && f[4..] == [e];
    assert Join([d, e], ";") == d + ";" + e by { assert [d, e][1..] == [e]; }
    assert Join([c, d, e], ";") == c + ";" + (d + ";" + e) by { assert [c, d, e][1..] == [d, e]; }
    assert Join([b, c, d, e], ";") == b + ";" + (c + ";" + (d + ";" + e)) by { assert [b, c, d, e][1..] == [c, d, e]; }
    assert Join(f, ";") == a + ";" + (b + ";" + (c + ";" + (d + ";" + e)));
  }

  /** With no `;` in any field, splitting the text at `;` gives the head
      `label=value<uom>` and the warning, critical, minimum and maximum
      fields, in that order. */
  lemma RenderSplits(p: Item)
    requires ';' !in p.name && ';' !in p.value && ';' !in OrEmpty(p.uom) && ';' !in OrEmpty(p.warn)
    requires ';' !in OrEmpty(p.crit) && ';' !in OrEmpty(p.minval) && ';' !in OrEmpty(p.maxval)
    ensures Split(Render(p), ';') == Fields(p)
  {
    var f := Fields(p);
    JoinFive(f[0], f[1], f[2], f[3], f[4]);
    assert f == [f[0], f[1], f[2], f[3], f[4]];
    assert forall k :: 0 <= k < |f| ==> ';' !in f[k];
    SplitJoin(f, ';');
  }

  /** The item of the class docstring renders as shown there. */
  lemma RenderExample()
    ensures Render(Item("filesystem_/", "55", Some("%"), Some("95"), Some("98"), Some("0"), Some("100")))
            == "filesystem_/=55%;95;98;0;100"
  {
    assert !NeedsQuotes("filesystem_/");
  }

  /** What the setters store is always acceptable to them. */
  predicate Valid(p: Item)
  {
    IsValidValue(Some(p.value)) && ValidUom(p.uom) && IsValidValue(p.minval) && IsValidValue(p.maxval)
  }

  // ---------------------------------------------------------------- the object

  /** `PerfData`, whose setters check their argument and leave the object
      unchanged when they raise. */
  class PerfData {
    var name: string
    var value: string
    var uom: Option<string>
    var warn: Option<string>
    var crit: Option<string>
    var minval: Option<string>
    var maxval: Option<string>

    /** The fields as a value. */
    function State(): Item
      reads this
    {
      Item(name, value, uom, warn, crit, minval, maxval)
    }

    /** The fields of an item whose checks have passed. */
    constructor(p: Item)
      requires Valid(p)
      ensures State() == p
    {
      name := p.name;
      value := p.value;
      uom := p.uom;
      warn := p.warn;
      crit := p.crit;
      minval := p.minval;
      maxval := p.maxval;
    }

    /** The setter of `value`. */
    method SetValue(v: Option<string>) returns (r: Result<(), string>)
      modifies this
      ensures r.Err? <==> ValueCheck(v).Some?
      ensures r.Err? ==> r.error == ValueCheck(v).value && State() == old(State())
      ensures r.Ok? ==> State() == old(State()).(value := v.value)
      ensures old(Valid(State())) ==> Valid(State())
    {
      if v.None? {
        return Err(ValueNoneError);
      } else if !IsValidValue(v) {
        return Err(ValueClassError);
      }
      value := v.value;
      r := Ok(());
    }

    /** The setter of `minval`. */
    method SetMinval(v: Option<string>) returns (r: Result<(), string>)
      modifies this
      ensures r.Err? <==> !IsValidValue(v)
      ensures r.Err? ==> r.error == MinvalClassError && State() == old(State())
      ensures r.Ok? ==> State() == old(State()).(minval := v)
      ensures old(Valid(State())) ==> Valid(State())
    {
      if !IsValidValue(v) {
        return Err(MinvalClassError);
      }
      minval := v;
      r := Ok(());
    }

    /** The setter of `maxval`. */
    method SetMaxval(v: Option<string>) returns (r: Result<(), string>)
      modifies this
      ensures r.Err? <==> !IsValidValue(v)
      ensures r.Err? ==> r.error == MaxvalClassError && State() == old(State())
      ensures r.Ok? ==> State() == old(State()).(maxval := v)
      ensures old(Valid(State())) ==> Valid(State())
    {
      if !IsValidValue(v) {
        return Err(MaxvalClassError);
      }
      maxval := v;
      r := Ok(());
    }

    /** The setter of `uom`. */
    method SetUom(u: Option<string>) returns (r: Result<(), string>)
      modifies this
      ensures r.Err? <==> !ValidUom(u)
      ensures r.Err? ==> r.error == UomError && State() == old(State())
      ensures r.Ok? ==> State() == old(State()).(uom := u)
      ensures old(Valid(State())) ==> Valid(State())
    {
      if u.Some? && Lower(u.value) !in UomChoices {
        return Err(UomError);
      }
      uom := u;
      r := Ok(());
    }

    /** Assigning `label`, `warn` or `crit`, which are not checked. */
    method SetName(n: string)
      modifies this
      ensures State() == old(State()).(name := n)
    {
      name := n;
    }

    method SetWarn(w: Option<string>)
      modifies this
      ensures State() == old(State()).(warn := w)
    {
      warn := w;
    }

    method SetCrit(c: Option<string>)
      modifies this
      ensures State() == old(State()).(crit := c)
    {
      crit := c;
    }
  }

  /** `PerfData(label, value, uom, warn, crit, minval, maxval)`: the first
      `ValueError` of the setters in the order `__init__` calls them, or the
      new object. */
  method NewPerfData(name: string, value: Option<string>, uom: Option<string>, warn: Option<string>,
                     crit: Option<string>, minval: Option<string>, maxval: Option<string>)
    returns (r: Result<PerfData, string>)
    ensures r.Err? <==> CreateError(value, uom, minval, maxval).Some?
    ensures r.Err? ==> r.error == CreateError(value, uom, minval, maxval).value
    ensures r.Ok? ==> fresh(r.value) && r.value.State() == Item(name, value.value, uom, warn, crit, minval, maxval)
  {
    var e := ValueCheck(value);
    if e.Some? {
      return Err(e.value);
    }
    e := UomCheck(uom);
    if e.Some? {
      return Err(e.value);
    }
    e := BoundCheck(minval, MinvalClassError);
    if e.Some? {
      return Err(e.value);
    }
    e := BoundCheck(maxval, MaxvalClassError);
    if e.Some? {
      return Err(e.value);
    }
    var p := new PerfData(Item(name, value.value, uom, warn, crit, minval, maxval));
    r := Ok(p);
  }
}
