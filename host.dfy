// `Host` (naghelp/host.py): a dictionary of facts about the monitored
// equipment, filled from three sources in increasing order of precedence:
// the database (and persistent data), the environment Nagios sets, and the
// command-line options.  Attributes not starting with `_` are its entries.
module HostData {
  import opened Results
  import opened Text

  /** A Python value stored in the host dictionary: `None`, textops'
      `NoAttr` (what a missing attribute reads as), a text or an integer. */
  datatype Value = Null | NoAttr | Str(text: string) | Int(number: int)

  /** Python truth: `None`, `NoAttr`, `''` and `0` are false. */
  predicate Truthy(v: Value)
  {
    (v.Str? && v.text != "") || (v.Int? && v.number != 0)
  }

  /** `a or b`. */
  function Or(a: Value, b: Value): (r: Value)
    ensures Truthy(r) <==> Truthy(a) || Truthy(b)
    ensures r == a || r == b
  {
    if Truthy(a) then a else b
  }

  /** `dct.get(k)` on a plain dictionary: `None` when missing. */
  function DictGet(dct: map<string, Value>, k: string): Value
  {
    if k in dct then dct[k] else Null
  }

  // ---------------------------------------------------------------- environment

  const EnvPrefix := "NAGIOS__"

  /** `_get_env_to_param`: the five variables kept under another name. */
  const EnvToParam: seq<(string, string)> := [("NAGIOS_HOSTNAME", "name"), ("NAGIOS_HOSTALIAS", "alias"),
                                            ("NAGIOS_HOSTADDRESS", "ip"), ("NAGIOS_HOSTGROUPNAMES", "groups"),
                                            ("NAGIOS_HOSTGROUPNAME", "group")]

  /** `os.environ.get(e)` on the environment given as the pairs of
      `os.environ.items()`. */
  function Lookup(env: seq<(string, string)>, e: string): (r: Option<string>)
    decreases |env|
    ensures r.Some? <==> exists i :: 0 <= i < |env| && env[i].0 == e
    ensures r.Some? ==> exists i :: 0 <= i < |env| && env[i] == (e, r.value)
  {
    if env == [] then None
    else if env[|env| - 1].0 == e then Some(env[|env| - 1].1)
    else
      var r := Lookup(env[..|env| - 1], e);
      assert forall i :: 0 <= i < |env| - 1 ==> env[..|env| - 1][i] == env[i];
      r
  }

  /** Whether an environment variable is a `NAGIOS__X` one. */
  predicate Prefixed(k: string) { StartsWith(k, EnvPrefix) }

  /** The host name a `NAGIOS__X` variable is stored under: `x`. */
  function ParamName(k: string): string
    requires Prefixed(k)
  {
    Lower(k[|EnvPrefix|..])
  }

  /** `dict([(k[8:].lower(), v) ...])` over the given pairs, a later pair
      replacing an earlier one with the same name. */
  function PrefixParams(env: seq<(string, string)>): map<string, string>
    decreases |env|
  {
    if env == [] then map[]
    else
      var d := PrefixParams(env[..|env| - 1]);
      var (k, v) := env[|env| - 1];
      if Prefixed(k) then d[ParamName(k) := v] else d
  }

  /** The renamed variables of `fixed`, in order, that the environment sets. */
  function FixedParams(d: map<string, string>, env: seq<(string, string)>, fixed: seq<(string, string)>): map<string, string>
    decreases |fixed|
  {
    if fixed == [] then d
    else
      var d' := FixedParams(d, env, fixed[..|fixed| - 1]);
      var (e, p) := fixed[|fixed| - 1];
      var v := Lookup(env, e);
      if v.Some? then d'[p := v.value] else d'
  }

  /** `_get_params_from_env()`. */
  function EnvParams(env: seq<(string, string)>): map<string, string>
  {
    FixedParams(PrefixParams(env), env, EnvToParam)
  }

  /** `_get_params_from_env()` as the source computes it: the prefixed
      variables first, then the renamed ones. */
  method ParamsFromEnv(env: seq<(string, string)>) returns (d: map<string, string>)
    ensures d == EnvParams(env)
  {
    d := map[];
    var i := 0;
    while i < |env|
      invariant 0 <= i <= |env|
      invariant d == PrefixParams(env[..i])
    {
      assert env[..i + 1][..i] == env[..i];
      var (k, v) := env[i];
      if Prefixed(k) {
        d := d[ParamName(k) := v];
      }
      i := i + 1;
    }
    assert env[..i] == env;
    var j := 0;
    while j < |EnvToParam|
      invariant 0 <= j <= |EnvToParam|
      invariant d == FixedParams(PrefixParams(env), env, EnvToParam[..j])
    {
      assert EnvToParam[..j + 1][..j] == EnvToParam[..j];
      var (e, p) := EnvToParam[j];
      var v := Lookup(env, e);
      if v.Some? {
        d := d[p := v.value];
      }
      j := j + 1;
    }
    assert EnvToParam[..j] == EnvToParam;
  }

  /** A prefixed variable is kept under its lower-cased name, and of two
      variables with the same such name the later one wins. */
  lemma PrefixParamsSpec(env: seq<(string, string)>, k: string)
    ensures k in PrefixParams(env) <==> exists i :: 0 <= i < |env| && Prefixed(env[i].0) && ParamName(env[i].0) == k
    ensures k in PrefixParams(env) ==>
              exists i :: 0 <= i < |env| && Prefixed(env[i].0) && ParamName(env[i].0) == k
                          && PrefixParams(env)[k] == env[i].1
                          && forall j :: i < j < |env| ==> !(Prefixed(env[j].0) && ParamName(env[j].0) == k)
  {
    PrefixParamsKeys(env, k);
    PrefixParamsLatest(env, k);
  }

  /** The keys of `PrefixParams` are the names of the prefixed variables. */
  lemma {:induction false} PrefixParamsKeys(env: seq<(string, string)>, k: string)
    decreases |env|
    ensures k in PrefixParams(env) <==> exists i :: 0 <= i < |env| && Prefixed(env[i].0) && ParamName(env[i].0) == k
  {
    if env != [] {
      var init := env[..|env| - 1];
      PrefixParamsKeys(init, k);
      PrefixParamsLast(env);
      assert forall i :: 0 <= i < |init| ==> init[i] == env[i];
    }
  }

  /** A key of `PrefixParams` holds the value of the last variable named so. */
  lemma {:induction false} PrefixParamsLatest(env: seq<(string, string)>, k: string)
    decreases |env|
    ensures k in PrefixParams(env) ==>
              exists i :: 0 <= i < |env| && Prefixed(env[i].0) && ParamName(env[i].0) == k
                          && PrefixParams(env)[k] == env[i].1
                          && forall j :: i < j < |env| ==> !(Prefixed(env[j].0) && ParamName(env[j].0) == k)
  {
    if env != [] {
      var init := env[..|env| - 1];
      PrefixParamsLatest(init, k);
      PrefixParamsLast(env);
      var last := |env| - 1;
      if Prefixed(env[last].0) && ParamName(env[last].0) == k {
        assert PrefixParams(env)[k] == env[last].1;
      } else if k in PrefixParams(init) {
        var i :| 0 <= i < |init| && Prefixed(init[i].0) && ParamName(init[i].0) == k
                 && PrefixParams(init)[k] == init[i].1
                 && forall j :: i < j < |init| ==> !(Prefixed(init[j].0) && ParamName(init[j].0) == k);
        assert PrefixParams(env)[k] == PrefixParams(init)[k] == env[i].1;
        forall j | i < j < |env| ensures !(Prefixed(env[j].0) && ParamName(env[j].0) == k) {
          if j < last { assert env[j] == init[j]; }
        }
      }
    }
  }

  /** `PrefixParams` of a non-empty list, unfolded once. */
  lemma PrefixParamsLast(env: seq<(string, string)>)
    requires env != []
    ensures var init := PrefixParams(env[..|env| - 1]);
            var last := env[|env| - 1];
            PrefixParams(env) == if Prefixed(last.0) then init[ParamName(last.0) := last.1] else init
  {
  }

  /** The names the five renamed variables are stored under. */
  predicate IsFixedName(p: string)
  {
    exists j :: 0 <= j < |EnvToParam| && EnvToParam[j].1 == p
  }

  /** The value of the last variable of `fixed` renamed to `k` that the
      environment sets. */
  function LastSet(env: seq<(string, string)>, fixed: seq<(string, string)>, k: string): Option<string>
    decreases |fixed|
  {
    if fixed == [] then None
    else
      var (e, p) := fixed[|fixed| - 1];
      if p == k && Lookup(env, e).Some? then Lookup(env, e) else LastSet(env, fixed[..|fixed| - 1], k)
  }

  /** A renamed variable that is set overrides what `d` holds; any other
      name keeps it. */
  lemma {:induction false} FixedParamsSpec(d: map<string, string>, env: seq<(string, string)>,
                                           fixed: seq<(string, string)>, k: string)
    decreases |fixed|
    ensures var f := FixedParams(d, env, fixed);
            && (LastSet(env, fixed, k).Some? ==> k in f && f[k] == LastSet(env, fixed, k).value)
            && (LastSet(env, fixed, k).None? ==> (k in f <==> k in d) && (k in d ==> f[k] == d[k]))
  {
    if fixed != [] {
      FixedParamsSpec(d, env, fixed[..|fixed| - 1], k);
    }
  }

  /** With distinct names, the last variable renamed to `fixed[j].1` is
      `fixed[j].0`; a name no variable is renamed to has none. */
  lemma {:induction false} LastSetDistinct(env: seq<(string, string)>, fixed: seq<(string, string)>, k: string)
    requires forall i, j :: 0 <= i < j < |fixed| ==> fixed[i].1 != fixed[j].1
    decreases |fixed|
    ensures forall j :: 0 <= j < |fixed| && fixed[j].1 == k ==> LastSet(env, fixed, k) == Lookup(env, fixed[j].0)
    ensures (forall j :: 0 <= j < |fixed| ==> fixed[j].1 != k) ==> LastSet(env, fixed, k).None?
  {
    if fixed != [] {
      var init := fixed[..|fixed| - 1];
      assert forall i :: 0 <= i < |init| ==> init[i] == fixed[i];
      LastSetDistinct(env, init, k);
    }
  }

  /** `_get_params_from_env()`: each of the five renamed variables that is
      set gives its name's value; any other name comes from the `NAGIOS__`
      variables. */
  lemma EnvParamsSpec(env: seq<(string, string)>, k: string)
    ensures forall j :: 0 <= j < |EnvToParam| && EnvToParam[j].1 == k && Lookup(env, EnvToParam[j].0).Some? ==>
              k in EnvParams(env) && EnvParams(env)[k] == Lookup(env, EnvToParam[j].0).value
    ensures !IsFixedName(k) ==> (k in EnvParams(env) <==> k in PrefixParams(env))
    ensures !IsFixedName(k) && k in PrefixParams(env) ==> EnvParams(env)[k] == PrefixParams(env)[k]
  {
    assert forall i, j :: 0 <= i < j < |EnvToParam| ==> EnvToParam[i].1 != EnvToParam[j].1;
    LastSetDistinct(env, EnvToParam, k);
    FixedParamsSpec(PrefixParams(env), env, EnvToParam, k);
  }

  /** The environment's parameters as host values. */
  function EnvValues(d: map<string, string>): (r: map<string, Value>)
    ensures r.Keys == d.Keys
    ensures forall k :: k in d ==> r[k] == Str(d[k])
  {
    map k | k in d :: Str(d[k])
  }

  // ---------------------------------------------------------------- other sources

  /** `_get_params_from_cmd_options()`: the options that are not `None`. */
  function CmdParams(options: map<string, Value>): (r: map<string, Value>)
    ensures forall k :: k in r <==> k in options && options[k] != Null
    ensures forall k :: k in r ==> r[k] == options[k]
  {
    map k | k in options && options[k] != Null :: options[k]
  }

  /** The name set at construction: the first true one of the option
      `name`, the environment's `name`, the option `ip` and the
      environment's `ip`, else the last of them. */
  function InitialName(cmd: map<string, Value>, env: map<string, Value>): (r: Value)
    ensures Truthy(DictGet(cmd, "name")) ==> r == DictGet(cmd, "name")
    ensures !Truthy(DictGet(cmd, "name")) && Truthy(DictGet(env, "name")) ==> r == DictGet(env, "name")
    ensures !Truthy(DictGet(cmd, "name")) && !Truthy(DictGet(env, "name")) && Truthy(DictGet(cmd, "ip")) ==>
              r == DictGet(cmd, "ip")
    ensures !Truthy(DictGet(cmd, "name")) && !Truthy(DictGet(env, "name")) && !Truthy(DictGet(cmd, "ip")) ==>
              r == DictGet(env, "ip")
  {
    Or(Or(Or(DictGet(cmd, "name"), DictGet(env, "name")), DictGet(cmd, "ip")), DictGet(env, "ip"))
  }

  /** `_merge` copies only entries that are not `None` or `NoAttr`. */
  predicate Kept(v: Value) { v != Null && v != NoAttr }

  /** The dictionary after `_merge(dct)`. */
  function Merged(items: map<string, Value>, dct: map<string, Value>): (r: map<string, Value>)
    ensures forall k :: k in r <==> k in items || (k in dct && Kept(dct[k]))
    ensures forall k :: k in dct && Kept(dct[k]) ==> r[k] == dct[k]
    ensures forall k :: k in items && !(k in dct && Kept(dct[k])) ==> r[k] == items[k]
  {
    items + map k | k in dct && Kept(dct[k]) :: dct[k]
  }

  /** After `load_data`, an entry comes from the options if they set it,
      else from the environment, else from the database, else it is what
      was there before. */
  lemma LoadPrecedence(items: map<string, Value>, db: map<string, Value>, env: map<string, Value>,
                       cmd: map<string, Value>, k: string)
    ensures var r := Merged(Merged(Merged(items, db), env), cmd);
            && (k in cmd && Kept(cmd[k]) ==> r[k] == cmd[k])
            && (!(k in cmd && Kept(cmd[k])) && k in env && Kept(env[k]) ==> r[k] == env[k])
            && (!(k in cmd && Kept(cmd[k])) && !(k in env && Kept(env[k])) && k in db && Kept(db[k]) ==> r[k] == db[k])
            && (!(k in cmd && Kept(cmd[k])) && !(k in env && Kept(env[k])) && !(k in db && Kept(db[k])) ==>
                  (k in r <==> k in items) && (k in items ==> r[k] == items[k]))
  {
  }

  /** `str()` of a host value in `%s`, where `NoAttr` is the empty text. */
  function ValueText(v: Value): string
  {
    match v
    case Null => "None"
    case NoAttr => ""
    case Str(s) => s
    case Int(i) => IntToString(i)
  }

  const PersistentHead := "/tmp/naghelp/"
  const PersistentTail := "_persistent_data.json"

  /** `persistent_filename_pattern % name`. */
  function PersistentFilename(name: Value): (r: string)
    ensures StartsWith(r, PersistentHead) && EndsWith(r, PersistentTail)
    ensures |r| == |PersistentHead| + |ValueText(name)| + |PersistentTail|
    ensures r[|PersistentHead|..|r| - |PersistentTail|] == ValueText(name)
  {
    var r := PersistentHead + ValueText(name) + PersistentTail;
    assert r[..|PersistentHead|] == PersistentHead;
    assert r[|r| - |PersistentTail|..] == PersistentTail;
    assert r[|PersistentHead|..|r| - |PersistentTail|] == ValueText(name);
    r
  }

  // ---------------------------------------------------------------- the object

  class Host {
    var items: map<string, Value>
    var paramsFromEnv: map<string, Value>
    var paramsFromCmd: map<string, Value>
    var paramsFromDb: map<string, Value>

    /** `Host(plugin)`, with the environment's pairs and the plugin's
      command-line options given: the only entry is the name. */
    constructor(env: seq<(string, string)>, options: map<string, Value>)
      ensures paramsFromEnv == EnvValues(EnvParams(env))
      ensures paramsFromCmd == CmdParams(options)
      ensures paramsFromDb == map[]
      ensures items == map["name" := InitialName(CmdParams(options), EnvValues(EnvParams(env)))]
    {
      var fromEnv := ParamsFromEnv(env);
      paramsFromEnv := EnvValues(fromEnv);
      paramsFromCmd := CmdParams(options);
      paramsFromDb := map[];
      items := map[];
      new;
      Set("name", Or(Or(Or(DictGet(paramsFromCmd, "name"), DictGet(paramsFromEnv, "name")),
                        DictGet(paramsFromCmd, "ip")), DictGet(paramsFromEnv, "ip")));
    }

    /** `get(name, default)`, and `host.name` with the default `NoAttr`. */
    function Get(name: string, default: Value): (r: Value)
      reads this
      ensures name in items ==> r == items[name]
      ensures name !in items ==> r == default
    {
      if name in items then items[name] else default
    }

    /** `set(name, value)`. */
    method Set(name: string, value: Value)
      modifies this
      ensures items == old(items)[name := value]
      ensures unchanged(this`paramsFromEnv, this`paramsFromCmd, this`paramsFromDb)
    {
      items := items[name := value];
    }

    /** `host.name = value`: a name not starting with `_` is an entry;
      another one is an attribute of the object, which leaves the entries
      as they are. */
    method SetAttr(name: string, value: Value)
      requires name != ""
      modifies this
      ensures items == if name[0] != '_' then old(items)[name := value] else old(items)
      ensures unchanged(this`paramsFromEnv, this`paramsFromCmd, this`paramsFromDb)
    {
      if name[0] != '_' {
        items := items[name := value];
      }
    }

    /** `delete(name)`: true, and the entry removed, iff it was there. */
    method Delete(name: string) returns (found: bool)
      modifies this
      ensures found <==> name in old(items)
      ensures items == old(items) - {name}
      ensures unchanged(this`paramsFromEnv, this`paramsFromCmd, this`paramsFromDb)
    {
      if name in items {
        items := items - {name};
        return true;
      }
      found := false;
    }

    /** `_merge(dct)`. */
    method Merge(dct: map<string, Value>)
      modifies this`items
      ensures items == Merged(old(items), dct)
    {
      items := items + map k | k in dct && Kept(dct[k]) :: dct[k];
    }

    /** `load_data()`, with what `_get_params_from_db` returns given. */
    method LoadData(db: map<string, Value>)
      modifies this
      ensures paramsFromDb == db
      ensures items == Merged(Merged(Merged(old(items), db), paramsFromEnv), paramsFromCmd)
      ensures unchanged(this`paramsFromEnv, this`paramsFromCmd)
    {
      paramsFromDb := db;
      Merge(paramsFromDb);
      Merge(paramsFromEnv);
      Merge(paramsFromCmd);
    }

    /** `_get_persistent_filename()`. */
    function PersistentFile(): (r: string)
      reads this
      ensures r == PersistentFilename(Get("name", NoAttr))
    {
      PersistentHead + ValueText(Get("name", NoAttr)) + PersistentTail
    }
  }
}
