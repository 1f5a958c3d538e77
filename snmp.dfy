// The parts of the `Snmp` collector (naghelp/collect.py, class `Snmp`) that
// shape data rather than talk to the agent: the choice of protocol version
// and credentials in `__init__`, the OID ranges of `get_oid_range`, the
// grouping of `mget`'s answers by variable, and the tabulation of walked
// OIDs by `dwalk`, `twalk` and `jwalk`.  The answers of the agent are given
// as data; their conversion to Python values (`to_native_type`) is not part
// of this model, so values are of an arbitrary type `V`.
module SnmpCollect {
  import opened Results
  import opened Text

  datatype SnmpError =
    | CollectFailed(message: string)      // CollectError
    | ConnectionFailed(message: string)   // ConnectionError
    | ValueError(text: string)            // int() of a text that is no integer
    | IndexError                          // an OID part index out of range
    | KeyError(key: string)               // an answered OID that was not asked
    | AssertionError(message: string)     // the column specifications of jwalk

  // ---------------------------------------------------------------- version and credentials

  /** The `version` argument: None, an integer, or a text such as '2c'. */
  datatype Version = NoVersion | Num(n: int) | Named(text: string)

  /** The security part of `cmd_args`: community data (with pysnmp's message
      processing model, 0 for version 1) or user-based security data, where
      `sha`/`aes` say whether the SHA authentication and AES privacy protocols
      are asked for (pysnmp's defaults otherwise), and an absent password is
      `None`. */
  datatype Security =
    | Community(community: string, mpModel: nat)
    | Usm(user: string, authKey: Option<string>, privKey: Option<string>, sha: bool, aes: bool)

  datatype Target = Target(host: string, port: int, timeout: int, retries: nat)

  datatype Credentials = Credentials(security: Security, target: Target)

  predicate Falsy(v: Version)
  {
    v.NoVersion? || v == Num(0) || v == Named("")
  }

  /** `'%s' % version`. */
  function VersionText(v: Version): string
  {
    match v
    case NoVersion => "None"
    case Num(n) => IntToString(n)
    case Named(t) => t
  }

  function KeyOf(passwd: string): Option<string>
  {
    if passwd == "" then None else Some(passwd)
  }

  /** The version in force: the given one, or 3 with a user and 2 without. */
  function EffectiveVersion(version: Version, user: string): (v: Version)
    ensures !Falsy(version) ==> v == version
    ensures Falsy(version) ==> (v == Num(3) <==> user != "") && (v == Num(2) <==> user == "")
  {
    if Falsy(version) then (if user != "" then Num(3) else Num(2)) else version
  }

  /** The body of `__init__` as written: the privacy protocol is AES when the
      *authentication* protocol is 'aes'.  `timeout/3` is Python 2's floor
      division, which agrees with Dafny's for the divisor 3. */
  function CredentialsAsWritten(host: string, community: string, version: Version, timeout: int, port: int,
                                user: string, authPasswd: string, authProtocol: string,
                                privPasswd: string, privProtocol: string): Result<Credentials, SnmpError>
  {
    SelectCredentials(host, community, version, timeout, port, user, authPasswd, authProtocol,
                      privPasswd, authProtocol)
  }

  /** The body of `__init__` as evidently intended: the privacy protocol is
      AES when the privacy protocol is 'aes'. */
  function CredentialsIntended(host: string, community: string, version: Version, timeout: int, port: int,
                               user: string, authPasswd: string, authProtocol: string,
                               privPasswd: string, privProtocol: string): Result<Credentials, SnmpError>
  {
    SelectCredentials(host, community, version, timeout, port, user, authPasswd, authProtocol,
                      privPasswd, privProtocol)
  }

  /** The selection, with the protocol text that decides AES privacy given
      separately. */
  function SelectCredentials(host: string, community: string, version: Version, timeout: int, port: int,
                             user: string, authPasswd: string, authProtocol: string,
                             privPasswd: string, privChoice: string): (r: Result<Credentials, SnmpError>)
  {
    var v := EffectiveVersion(version, user);
    var target := Target(host, port, timeout / 3, 2);
    if v == Num(1) then Ok(Credentials(Community(community, 0), target))
    else if v == Num(2) || v == Named("2c") then Ok(Credentials(Community(community, 1), target))
    else if v == Num(3) then
      if user == "" then Err(ConnectionFailed("user must be not empty"))
      else
        var sha := authPasswd != "" && Lower(authProtocol) == "sha";
        var aes := privPasswd != "" && Lower(privChoice) == "aes";
        Ok(Credentials(Usm(user, KeyOf(authPasswd), KeyOf(privPasswd), sha, aes), target))
    else Err(ConnectionFailed("Bad snmp version protocol, given : " + VersionText(v) + ", possible : 1,2,2c,3"))
  }

  /** Which security every version gets, and which versions are refused. */
  lemma {:induction false} SelectCredentialsCases(host: string, community: string, version: Version, timeout: int, port: int,
                               user: string, authPasswd: string, authProtocol: string,
                               privPasswd: string, privChoice: string)
    ensures var r := SelectCredentials(host, community, version, timeout, port, user, authPasswd, authProtocol,
                                       privPasswd, privChoice);
            var v := EffectiveVersion(version, user);
            && (r.Ok? ==> r.value.target == Target(host, port, timeout / 3, 2))
            && (v == Num(1) ==> r.Ok? && r.value.security == Community(community, 0))
            && (v in {Num(2), Named("2c")} ==> r.Ok? && r.value.security == Community(community, 1))
            && (v == Num(3) ==> (r.Ok? <==> user != ""))
            && (r.Ok? && r.value.security.Usm? ==>
                  v == Num(3) && r.value.security.user == user
                  && (r.value.security.authKey.None? <==> authPasswd == "")
                  && (r.value.security.privKey.None? <==> privPasswd == ""))
            && (v !in {Num(1), Num(2), Named("2c"), Num(3)} ==> r.Err? && r.error.ConnectionFailed?)
  {
  }

  /** As written, asking for AES privacy with SHA authentication gets
      pysnmp's default privacy protocol: only an authentication protocol
      spelled 'aes' turns AES on. */
  lemma {:induction false} PrivacyFollowsAuthProtocol()
    ensures var r := CredentialsAsWritten("h", "public", Num(3), 30, 161, "u", "a", "sha", "p", "aes");
            r.Ok? && r.value.security.Usm? && r.value.security.sha && !r.value.security.aes
  {
    assert Lower("sha") == "sha" && Lower("aes") == "aes";
  }

  /** As intended, AES privacy follows the privacy protocol, whatever the
      authentication protocol. */
  lemma {:induction false} PrivacyFollowsPrivProtocol(host: string, community: string, timeout: int, port: int, user: string,
                                   authPasswd: string, authProtocol: string, privPasswd: string, privProtocol: string)
    requires user != ""
    ensures var r := CredentialsIntended(host, community, Num(3), timeout, port, user, authPasswd, authProtocol,
                                         privPasswd, privProtocol);
            r.Ok? && r.value.security.Usm?
            && (r.value.security.aes <==> privPasswd != "" && Lower(privProtocol) == "aes")
            && (r.value.security.sha <==> authPasswd != "" && Lower(authProtocol) == "sha")
  {
  }

  // ---------------------------------------------------------------- OID ranges

  /** One OID of a range: begin's prefix, the integer, end's suffix. */
  function OidAt(prefix: seq<string>, id: int, suffix: seq<string>): string
  {
    Join(prefix + [IntToString(id)] + suffix, ".")
  }

  /** The parsed parts of a range text `prefix.first-last.suffix`. */
  datatype RangeParts = RangeParts(prefix: seq<string>, first: int, last: int, suffix: seq<string>)

  /** The parsing part of `get_oid_range`. */
  function ParseRange(text: string): (r: Result<RangeParts, SnmpError>)
    ensures r.Ok? ==> CountChar(text, '-') == 1
    ensures r.Ok? ==> forall k :: 0 <= k < |r.value.prefix| ==> '.' !in r.value.prefix[k]
    ensures r.Ok? ==> forall k :: 0 <= k < |r.value.suffix| ==> '.' !in r.value.suffix[k]
  {
    if CountChar(text, '-') != 1 then Err(CollectFailed("An OID range must have one and only one \"-\""))
    else
      SplitCount(text, '-');
      var parts := Split(text, '-');
      var begin := Split(parts[0], '.');
      var end := Split(parts[1], '.');
      match ParseInt(begin[|begin| - 1])
      case None => Err(ValueError(begin[|begin| - 1]))
      case Some(first) =>
        match ParseInt(end[0])
        case None => Err(ValueError(end[0]))
        case Some(last) => Ok(RangeParts(begin[..|begin| - 1], first, last, end[1..]))
  }

  /** The OIDs for the integers `first .. first + n - 1`. */
  function RangeOids(p: RangeParts, n: nat): (r: seq<string>)
    ensures |r| == n
  {
    if n == 0 then [] else RangeOids(p, n - 1) + [OidAt(p.prefix, p.first + n - 1, p.suffix)]
  }

  function RangeSize(p: RangeParts): nat
  {
    if p.first > p.last then 0 else p.last - p.first + 1
  }

  /** `get_oid_range(oid_range)`. */
  function OidRange(text: string): Result<seq<string>, SnmpError>
  {
    match ParseRange(text)
    case Err(e) => Err(e)
    case Ok(p) => Ok(RangeOids(p, RangeSize(p)))
  }

  lemma {:induction false} RangeOidsAt(p: RangeParts, n: nat, k: nat)
    requires k < n
    ensures RangeOids(p, n)[k] == OidAt(p.prefix, p.first + k, p.suffix)
  {
    if k < n - 1 {
      RangeOidsAt(p, n - 1, k);
    }
  }

  /** A range holds `last - first + 1` OIDs, none when `first > last`; the
      k-th is begin's prefix, `first + k` and end's suffix, and its parts read
      back as exactly these, so the integers increase along the list. */
  lemma {:induction false} OidRangeContents(text: string, k: nat)
    requires ParseRange(text).Ok?
    ensures var p := ParseRange(text).value;
            var r := OidRange(text).value;
            && |r| == (if p.first > p.last then 0 else p.last - p.first + 1)
            && (k < |r| ==> r[k] == OidAt(p.prefix, p.first + k, p.suffix)
                            && Split(r[k], '.') == p.prefix + [IntToString(p.first + k)] + p.suffix
                            && ParseInt(Split(r[k], '.')[|p.prefix|]) == Some(p.first + k))
  {
    var p := ParseRange(text).value;
    var r := OidRange(text).value;
    if k < |r| {
      RangeOidsAt(p, RangeSize(p), k);
      var parts := p.prefix + [IntToString(p.first + k)] + p.suffix;
      forall j | 0 <= j < |parts| ensures '.' !in parts[j] {
        if j == |p.prefix| {
          NoDotInInt(p.first + k);
        } else if j > |p.prefix| {
          assert parts[j] == p.suffix[j - |p.prefix| - 1];
        } else {
          assert parts[j] == p.prefix[j];
        }
      }
      SplitJoin(parts, '.');
      assert parts[|p.prefix|] == IntToString(p.first + k);
      ParseIntOfIntToString(p.first + k);
    }
  }

  lemma {:induction false} NoDotInInt(i: int)
    ensures '.' !in IntToString(i)
  {
    var s := IntToString(i);
    if i < 0 {
      assert s == "-" + NatToString(-i);
      assert forall k :: 1 <= k < |s| ==> s[k] == NatToString(-i)[k - 1];
    }
  }

  lemma {:induction false} RangeOidsSnoc(p: RangeParts, n: nat)
    ensures RangeOids(p, n + 1) == RangeOids(p, n) + [OidAt(p.prefix, p.first + n, p.suffix)]
  {
  }

  /** The loop of `get_oid_range` over `first .. last`. */
  method RangeLoop(p: RangeParts) returns (oids: seq<string>)
    ensures oids == RangeOids(p, RangeSize(p))
  {
    oids := [];
    var size := RangeSize(p);
    var id := p.first;
    while id < p.first + size
      invariant p.first <= id <= p.first + size
      invariant oids == RangeOids(p, id - p.first)
      decreases p.first + size - id
    {
      RangeOidsSnoc(p, id - p.first);
      oids := oids + [OidAt(p.prefix, id, p.suffix)];
      id := id + 1;
    }
  }

  /** `get_oid_range(oid_range)`: the parsing, then the loop. */
  method GetOidRange(text: string) returns (r: Result<seq<string>, SnmpError>)
    ensures r == OidRange(text)
  {
    var parsed := ParseRange(text);
    if parsed.Err? {
      return Err(parsed.error);
    }
    var oids := RangeLoop(parsed.value);
    return Ok(oids);
  }

  // ---------------------------------------------------------------- mget

  /** An answered value, or `NoAttr` for `noSuchInstance`. */
  datatype Cell<V> = Present(value: V) | Missing

  /** What `mget` stores for a variable: its only value, or all of them. */
  datatype Entry<V> = Scalar(cell: Cell<V>) | Group(cells: seq<Cell<V>>)

  /** The agent's answer: an error indication or status, or the bindings. */
  datatype Reply<V> = Failure(message: string) | Bindings(binds: seq<(string, Cell<V>)>)

  /** The values of an entry, in order. */
  function Values<V>(e: Entry<V>): seq<Cell<V>>
  {
    match e
    case Scalar(c) => [c]
    case Group(cs) => cs
  }

  /** The request of `mget`: the OIDs asked for, ranges expanded, in order,
      and which variable each OID answers (the last one naming it wins). */
  function RequestFrom(varsOids: seq<(string, string)>, oids: seq<string>, oidToVar: map<string, string>)
    : Result<(seq<string>, map<string, string>), SnmpError>
    decreases |varsOids|
  {
    if varsOids == [] then Ok((oids, oidToVar))
    else
      var (v, oid) := varsOids[0];
      if '-' in oid then
        match OidRange(oid)
        case Err(e) => Err(e)
        case Ok(expanded) => RequestFrom(varsOids[1..], oids + expanded, Assign(oidToVar, expanded, v))
      else RequestFrom(varsOids[1..], oids + [oid], oidToVar[oid := v])
  }

  /** The inner loop `oid_to_var[real_oid] = var` over the expanded OIDs:
      every OID of `oids` mapped to `v`, every other entry kept. */
  function Assign(m: map<string, string>, oids: seq<string>, v: string): (r: map<string, string>)
    decreases |oids|
    ensures forall k :: 0 <= k < |oids| ==> oids[k] in r && r[oids[k]] == v
    ensures forall o :: o in m ==> o in r
    ensures forall o :: o in m && o !in oids ==> r[o] == m[o]
  {
    if oids == [] then m
    else
      var r := Assign(m[oids[0] := v], oids[1..], v);
      assert forall k :: 1 <= k < |oids| ==> oids[k] == oids[1..][k - 1];
      assert oids[0] in oids[1..] ==> r[oids[0]] == v by {
        if oids[0] in oids[1..] {
          var j :| 0 <= j < |oids[1..]| && oids[1..][j] == oids[0];
        }
      }
      r
  }

  /** Appending OIDs that the larger map covers keeps every OID covered. */
  lemma {:induction false} CoversAppend(oids: seq<string>, extra: seq<string>, m0: map<string, string>, m: map<string, string>)
    requires forall k :: 0 <= k < |oids| ==> oids[k] in m0
    requires forall o :: o in m0 ==> o in m
    requires forall k :: 0 <= k < |extra| ==> extra[k] in m
    ensures forall k :: 0 <= k < |oids + extra| ==> (oids + extra)[k] in m
  {
    forall k | 0 <= k < |oids + extra| ensures (oids + extra)[k] in m {
      if k < |oids| {
        assert (oids + extra)[k] == oids[k];
      } else {
        assert (oids + extra)[k] == extra[k - |oids|];
      }
    }
  }

  /** Every OID asked for answers some variable. */
  lemma {:induction false} RequestCovers(varsOids: seq<(string, string)>, oids: seq<string>, oidToVar: map<string, string>)
    requires forall k :: 0 <= k < |oids| ==> oids[k] in oidToVar
    decreases |varsOids|
    ensures var r := RequestFrom(varsOids, oids, oidToVar);
            r.Ok? ==> forall k :: 0 <= k < |r.value.0| ==> r.value.0[k] in r.value.1
  {
    if varsOids != [] {
      var (v, oid) := varsOids[0];
      if '-' in oid {
        match OidRange(oid)
        case Err(e) =>
        case Ok(expanded) =>
          var m := Assign(oidToVar, expanded, v);
          assert RequestFrom(varsOids, oids, oidToVar) == RequestFrom(varsOids[1..], oids + expanded, m);
          CoversAppend(oids, expanded, oidToVar, m);
          RequestCovers(varsOids[1..], oids + expanded, m);
          var r := RequestFrom(varsOids[1..], oids + expanded, m);
          assert r.Ok? ==> forall k :: 0 <= k < |r.value.0| ==> r.value.0[k] in r.value.1;
      } else {
        var m := oidToVar[oid := v];
        assert RequestFrom(varsOids, oids, oidToVar) == RequestFrom(varsOids[1..], oids + [oid], m);
        CoversAppend(oids, [oid], oidToVar, m);
        RequestCovers(varsOids[1..], oids + [oid], m);
        var r := RequestFrom(varsOids[1..], oids + [oid], m);
        assert r.Ok? ==> forall k :: 0 <= k < |r.value.0| ==> r.value.0[k] in r.value.1;
      }
    }
  }

  /** Storing one more value for a variable. */
  function AddValue<V>(dct: map<string, Entry<V>>, v: string, c: Cell<V>): map<string, Entry<V>>
  {
    if v in dct then
      match dct[v]
      case Group(cs) => dct[v := Group(cs + [c])]
      case Scalar(first) => dct[v := Group([first, c])]
    else dct[v := Scalar(c)]
  }

  /** The `for oid, val in varBinds` loop of `mget`. */
  function GroupFrom<V>(binds: seq<(string, Cell<V>)>, oidToVar: map<string, string>, dct: map<string, Entry<V>>)
    : Result<map<string, Entry<V>>, SnmpError>
    decreases |binds|
  {
    if binds == [] then Ok(dct)
    else if binds[0].0 !in oidToVar then Err(KeyError(binds[0].0))
    else GroupFrom(binds[1..], oidToVar, AddValue(dct, oidToVar[binds[0].0], binds[0].1))
  }

  /** The values answered for variable `v`, in answer order. */
  function ValuesFor<V>(binds: seq<(string, Cell<V>)>, oidToVar: map<string, string>, v: string): seq<Cell<V>>
    requires forall k :: 0 <= k < |binds| ==> binds[k].0 in oidToVar
    decreases |binds|
  {
    if binds == [] then []
    else (if oidToVar[binds[0].0] == v then [binds[0].1] else []) + ValuesFor(binds[1..], oidToVar, v)
  }

  /** Groups hold at least two values. */
  predicate WellGrouped<V>(dct: map<string, Entry<V>>)
  {
    forall v :: v in dct && dct[v].Group? ==> |dct[v].cells| >= 2
  }

  /** Storing one value keeps groups at two values or more and appends the
      value to its own variable only. */
  lemma {:induction false} AddValueFacts<V>(dct: map<string, Entry<V>>, w: string, c: Cell<V>, v: string)
    requires WellGrouped(dct)
    ensures var d1 := AddValue(dct, w, c);
            && WellGrouped(d1)
            && (v in d1 <==> v in dct || v == w)
            && (v in d1 ==> Values(d1[v]) == (if v in dct then Values(dct[v]) else []) + (if v == w then [c] else []))
            && (v != w && v in dct ==> d1[v] == dct[v])
  {
  }

  /** In a well-grouped dictionary an entry is a scalar exactly when it holds
      one value. */
  lemma {:induction false} ScalarIffOne<V>(dct: map<string, Entry<V>>, v: string)
    requires WellGrouped(dct) && v in dct
    ensures dct[v].Scalar? <==> |Values(dct[v])| == 1
  {
  }

  /** After the grouping every variable that got an answer holds all its
      values in answer order (after those it already had); it is stored as
      a scalar exactly when it holds one value only, and variables without
      answers are left as they were. */
  lemma {:induction false} GroupCollects<V>(binds: seq<(string, Cell<V>)>, oidToVar: map<string, string>,
                                            dct: map<string, Entry<V>>, v: string)
    requires forall k :: 0 <= k < |binds| ==> binds[k].0 in oidToVar
    requires WellGrouped(dct)
    decreases |binds|
    ensures GroupFrom(binds, oidToVar, dct).Ok?
    ensures var r := GroupFrom(binds, oidToVar, dct).value;
            var vals := ValuesFor(binds, oidToVar, v);
            && WellGrouped(r)
            && (v in r <==> v in dct || vals != [])
            && (v in r ==> Values(r[v]) == (if v in dct then Values(dct[v]) else []) + vals)
            && (v in r ==> (r[v].Scalar? <==> |Values(r[v])| == 1))
            && (vals == [] && v in dct ==> r[v] == dct[v])
  {
    if binds != [] {
      var w := oidToVar[binds[0].0];
      var c := binds[0].1;
      var d1 := AddValue(dct, w, c);
      AddValueFacts(dct, w, c, v);
      GroupCollects(binds[1..], oidToVar, d1, v);
      assert GroupFrom(binds, oidToVar, dct) == GroupFrom(binds[1..], oidToVar, d1);
      var r := GroupFrom(binds, oidToVar, dct).value;
      var here: seq<Cell<V>> := if w == v then [c] else [];
      var later := ValuesFor(binds[1..], oidToVar, v);
      assert ValuesFor(binds, oidToVar, v) == here + later;
      if v in r {
        ScalarIffOne(r, v);
        if v in d1 {
          AppendAssoc(if v in dct then Values(dct[v]) else [], here, later);
        }
      }
    }
  }

  /** `mget(vars_oids)` on the agent's reply. */
  function MGetSpec<V>(varsOids: seq<(string, string)>, reply: Reply<V>): Result<map<string, Entry<V>>, SnmpError>
  {
    match RequestFrom(varsOids, [], map[])
    case Err(e) => Err(e)
    case Ok(req) =>
      match reply
      case Failure(m) => Err(CollectFailed(m))
      case Bindings(binds) => GroupFrom(binds, req.1, map[])
  }

  /** The request loop of `mget`: the OIDs asked for and the variable each
      one answers. */
  method BuildRequest(varsOids: seq<(string, string)>) returns (r: Result<(seq<string>, map<string, string>), SnmpError>)
    ensures r == RequestFrom(varsOids, [], map[])
  {
    var oids: seq<string> := [];
    var oidToVar: map<string, string> := map[];
    var i := 0;
    ghost var goal := RequestFrom(varsOids, [], map[]);
    while i < |varsOids|
      invariant i <= |varsOids|
      invariant RequestFrom(varsOids[i..], oids, oidToVar) == goal
    {
      var (v, oid) := varsOids[i];
      assert varsOids[i..][0] == (v, oid) && varsOids[i..][1..] == varsOids[i + 1..];
      if '-' in oid {
        var expanded := GetOidRange(oid);
        if expanded.Err? {
          return Err(expanded.error);
        }
        oids := oids + expanded.value;
        oidToVar := Assign(oidToVar, expanded.value, v);
      } else {
        oids := oids + [oid];
        oidToVar := oidToVar[oid := v];
      }
      i := i + 1;
    }
    assert varsOids[i..] == [];
    return Ok((oids, oidToVar));
  }

  /** The grouping loop of `mget` over the answered bindings. */
  method GroupBinds<V>(binds: seq<(string, Cell<V>)>, oidToVar: map<string, string>)
    returns (r: Result<map<string, Entry<V>>, SnmpError>)
    ensures r == GroupFrom(binds, oidToVar, map[])
  {
    var dct: map<string, Entry<V>> := map[];
    var j := 0;
    while j < |binds|
      invariant j <= |binds|
      invariant GroupFrom(binds[j..], oidToVar, dct) == GroupFrom(binds, oidToVar, map[])
    {
      var (oid, c) := binds[j];
      assert binds[j..][0] == (oid, c) && binds[j..][1..] == binds[j + 1..];
      if oid !in oidToVar {
        return Err(KeyError(oid));
      }
      var v := oidToVar[oid];
      if v in dct {
        match dct[v] {
          case Group(cs) =>
            dct := dct[v := Group(cs + [c])];
          case Scalar(first) =>
            dct := dct[v := Group([first, c])];
        }
      } else {
        dct := dct[v := Scalar(c)];
      }
      j := j + 1;
    }
    assert binds[j..] == [];
    return Ok(dct);
  }

  /** `mget(vars_oids)`: the request, then the grouping of the reply. */
  method MGet<V>(varsOids: seq<(string, string)>, reply: Reply<V>) returns (r: Result<map<string, Entry<V>>, SnmpError>)
    ensures r == MGetSpec(varsOids, reply)
  {
    var req := BuildRequest(varsOids);
    if req.Err? {
      return Err(req.error);
    }
    if reply.Failure? {
      return Err(CollectFailed(reply.message));
    }
    r := GroupBinds(reply.binds, req.value.1);
  }

  // ---------------------------------------------------------------- dwalk, twalk, jwalk

  /** Python's `xs[i]`, negative indices counting from the end. */
  function PyIndex<T>(xs: seq<T>, i: int): Option<T>
  {
    if 0 <= i < |xs| then Some(xs[i])
    else if i < 0 && 0 <= i + |xs| then Some(xs[i + |xs|])
    else None
  }

  /** The integer at position `i` of an OID's dotted parts. */
  function OidPart(oid: string, i: int): Result<int, SnmpError>
  {
    match PyIndex(Split(oid, '.'), i)
    case None => Err(IndexError)
    case Some(t) =>
      match ParseInt(t)
      case None => Err(ValueError(t))
      case Some(n) => Ok(n)
  }

  /** A walked table: row, then column, then value. */
  type Table<V> = map<int, map<int, V>>

  /** `dct.setdefault(row, {}).setdefault(col, val)`: the first value wins. */
  function SetDefault<V>(t: Table<V>, row: int, col: int, val: V): (r: Table<V>)
    ensures r.Keys == t.Keys + {row}
    ensures row in t && col in t[row] ==> r == t
    ensures !(row in t && col in t[row]) ==> r[row] == (if row in t then t[row] else map[])[col := val]
    ensures forall x :: x in t && x != row ==> r[x] == t[x]
  {
    var cells := if row in t then t[row] else map[];
    if col in cells then t[row := cells] else t[row := cells[col := val]]
  }

  /** The `for oid, val in walk_data` loop of `dwalk`/`twalk`. */
  function TabulateFrom<V>(walk: seq<(string, V)>, irow: int, icol: int, t: Table<V>): Result<Table<V>, SnmpError>
    decreases |walk|
  {
    if walk == [] then Ok(t)
    else
      var (oid, val) := walk[0];
      match OidPart(oid, irow)
      case Err(e) => Err(e)
      case Ok(row) =>
        match OidPart(oid, icol)
        case Err(e) => Err(e)
        case Ok(col) => TabulateFrom(walk[1..], irow, icol, SetDefault(t, row, col, val))
  }

  /** The position of a walked OID in the table. */
  predicate At<V>(entry: (string, V), irow: int, icol: int, row: int, col: int)
  {
    OidPart(entry.0, irow) == Ok(row) && OidPart(entry.0, icol) == Ok(col)
  }

  /** Whether a table has a cell at a position. */
  predicate HasCell<V>(t: Table<V>, row: int, col: int)
  {
    row in t && col in t[row]
  }

  /** One step of the tabulation, for the walked OID at the head. */
  lemma {:induction false} TabulateStep<V>(walk: seq<(string, V)>, irow: int, icol: int, t: Table<V>)
    requires walk != [] && TabulateFrom(walk, irow, icol, t).Ok?
    ensures OidPart(walk[0].0, irow).Ok? && OidPart(walk[0].0, icol).Ok?
    ensures var t1 := SetDefault(t, OidPart(walk[0].0, irow).value, OidPart(walk[0].0, icol).value, walk[0].1);
            TabulateFrom(walk, irow, icol, t) == TabulateFrom(walk[1..], irow, icol, t1)
  {
  }

  /** Some walked OID points at a position exactly when the first does or
      one of the others does. */
  lemma {:induction false} SomeAtCons<V>(walk: seq<(string, V)>, irow: int, icol: int, row: int, col: int)
    requires walk != []
    ensures (exists k :: 0 <= k < |walk| && At(walk[k], irow, icol, row, col))
            <==> At(walk[0], irow, icol, row, col) || exists k :: 0 <= k < |walk[1..]| && At(walk[1..][k], irow, icol, row, col)
  {
    if exists k :: 0 <= k < |walk[1..]| && At(walk[1..][k], irow, icol, row, col) {
      var k :| 0 <= k < |walk[1..]| && At(walk[1..][k], irow, icol, row, col);
      assert walk[1..][k] == walk[k + 1];
    }
    if exists k :: 0 <= k < |walk| && At(walk[k], irow, icol, row, col) {
      var k :| 0 <= k < |walk| && At(walk[k], irow, icol, row, col);
      if k > 0 { assert walk[k] == walk[1..][k - 1]; }
    }
  }

  /** `setdefault` adds exactly its own cell. */
  lemma {:induction false} SetDefaultCells<V>(t: Table<V>, r0: int, c0: int, val: V, row: int, col: int)
    ensures HasCell(SetDefault(t, r0, c0, val), row, col) <==> HasCell(t, row, col) || (row == r0 && col == c0)
  {
  }

  /** A finished tabulation has a cell exactly where it already had one or
      where some walked OID points. */
  lemma {:induction false} TabulateCells<V>(walk: seq<(string, V)>, irow: int, icol: int, t: Table<V>,
                                            row: int, col: int)
    requires TabulateFrom(walk, irow, icol, t).Ok?
    decreases |walk|
    ensures HasCell(TabulateFrom(walk, irow, icol, t).value, row, col) <==>
            HasCell(t, row, col) || exists k :: 0 <= k < |walk| && At(walk[k], irow, icol, row, col)
  {
    if walk != [] {
      TabulateStep(walk, irow, icol, t);
      var r0 := OidPart(walk[0].0, irow).value;
      var c0 := OidPart(walk[0].0, icol).value;
      var t1 := SetDefault(t, r0, c0, walk[0].1);
      TabulateCells(walk[1..], irow, icol, t1, row, col);
      SetDefaultCells(t, r0, c0, walk[0].1, row, col);
      assert At(walk[0], irow, icol, row, col) <==> row == r0 && col == c0;
      SomeAtCons(walk, irow, icol, row, col);
    }
  }

  /** A cell the table already had keeps its value. */
  lemma {:induction false} TabulateKeeps<V>(walk: seq<(string, V)>, irow: int, icol: int, t: Table<V>,
                                            row: int, col: int)
    requires TabulateFrom(walk, irow, icol, t).Ok? && HasCell(t, row, col)
    decreases |walk|
    ensures HasCell(TabulateFrom(walk, irow, icol, t).value, row, col)
    ensures TabulateFrom(walk, irow, icol, t).value[row][col] == t[row][col]
  {
    if walk != [] {
      TabulateStep(walk, irow, icol, t);
      var t1 := SetDefault(t, OidPart(walk[0].0, irow).value, OidPart(walk[0].0, icol).value, walk[0].1);
      TabulateKeeps(walk[1..], irow, icol, t1, row, col);
    }
  }

  /** A new cell holds the value of the first walked OID pointing there:
      `setdefault` never overwrites. */
  lemma {:induction false} TabulateFirstWins<V>(walk: seq<(string, V)>, irow: int, icol: int, t: Table<V>,
                                                k: nat, row: int, col: int)
    requires TabulateFrom(walk, irow, icol, t).Ok?
    requires k < |walk| && At(walk[k], irow, icol, row, col) && !HasCell(t, row, col)
    requires forall j :: 0 <= j < k ==> !At(walk[j], irow, icol, row, col)
    decreases |walk|
    ensures HasCell(TabulateFrom(walk, irow, icol, t).value, row, col)
    ensures TabulateFrom(walk, irow, icol, t).value[row][col] == walk[k].1
  {
    TabulateStep(walk, irow, icol, t);
    var t1 := SetDefault(t, OidPart(walk[0].0, irow).value, OidPart(walk[0].0, icol).value, walk[0].1);
    if k == 0 {
      TabulateKeeps(walk[1..], irow, icol, t1, row, col);
    } else {
      assert !At(walk[0], irow, icol, row, col);
      forall j | 0 <= j < k - 1 ensures !At(walk[1..][j], irow, icol, row, col) {
        assert walk[1..][j] == walk[j + 1];
      }
      TabulateFirstWins(walk[1..], irow, icol, t1, k - 1, row, col);
    }
  }

  /** `dwalk(walk_data, irow, icol)` with its loop. */
  method DWalk<V>(walk: seq<(string, V)>, irow: int, icol: int) returns (r: Result<Table<V>, SnmpError>)
    ensures r == TabulateFrom(walk, irow, icol, map[])
  {
    var dct: Table<V> := map[];
    var i := 0;
    while i < |walk|
      invariant i <= |walk|
      invariant TabulateFrom(walk[i..], irow, icol, dct) == TabulateFrom(walk, irow, icol, map[])
    {
      var (oid, val) := walk[i];
      assert walk[i..][0] == (oid, val) && walk[i..][1..] == walk[i + 1..];
      var row := OidPart(oid, irow);
      if row.Err? {
        return Err(row.error);
      }
      var col := OidPart(oid, icol);
      if col.Err? {
        return Err(col.error);
      }
      var cells := if row.value in dct then dct[row.value] else map[];
      if col.value !in cells {
        cells := cells[col.value := val];
      }
      dct := dct[row.value := cells];
      i := i + 1;
    }
    return Ok(dct);
  }

  /** A non-empty set has an element. */
  lemma {:induction false} NonEmptyHasElement(s: set<int>)
    requires s != {}
    ensures exists y :: y in s
  {
    if forall y :: y !in s {
      assert false;
    }
  }

  /** A least element of a non-empty set of integers. */
  lemma {:induction false} LeastOf(s: set<int>) returns (m: int)
    requires s != {}
    decreases |s|
    ensures m in s && forall x :: x in s ==> m <= x
  {
    NonEmptyHasElement(s);
    var y :| y in s;
    if forall x :: x in s ==> y <= x {
      m := y;
    } else {
      var z :| z in s && z < y;
      var rest := s - {y};
      assert z in rest;
      var m1 := LeastOf(rest);
      assert forall x :: x in s ==> x == y || x in rest;
      m := m1;
    }
  }

  lemma {:induction false} MinExists(s: set<int>)
    requires s != {}
    ensures exists m :: m in s && forall x :: x in s ==> m <= x
  {
    var m := LeastOf(s);
  }

  predicate Increasing(xs: seq<int>)
  {
    forall i, j :: 0 <= i < j < |xs| ==> xs[i] < xs[j]
  }

  /** Putting the least element ahead of the sorted rest keeps it sorted. */
  lemma {:induction false} SortedCons(m: int, rest: seq<int>, s: set<int>)
    requires m in s && forall x :: x in s ==> m <= x
    requires Increasing(rest) && forall x :: x in s - {m} <==> x in rest
    ensures Increasing([m] + rest)
    ensures forall x :: x in s <==> x in [m] + rest
  {
    forall i | 0 <= i < |rest| ensures m < rest[i] { assert rest[i] in rest; }
  }

  /** The least element of a non-empty set of integers. */
  function Least(s: set<int>): (m: int)
    requires s != {}
    ensures m in s && forall x :: x in s ==> m <= x
  {
    MinExists(s);
    var m :| m in s && forall x :: x in s ==> m <= x;
    m
  }

  /** Python's `sorted` of the keys of an integer-keyed dictionary (see
      `SortedIntsFacts`). */
  function SortedInts(s: set<int>): (r: seq<int>)
    decreases |s|
    ensures |r| == |s|
  {
    if s == {} then []
    else
      var m := Least(s);
      assert |s - {m}| == |s| - 1;
      [m] + SortedInts(s - {m})
  }

  /** `sorted` lists each element of the set once, in increasing order. */
  lemma {:induction false} SortedIntsFacts(s: set<int>)
    decreases |s|
    ensures forall x :: x in s <==> x in SortedInts(s)
    ensures forall k :: 0 <= k < |SortedInts(s)| ==> SortedInts(s)[k] in s
    ensures Increasing(SortedInts(s))
  {
    if s != {} {
      var m := Least(s);
      var rest := SortedInts(s - {m});
      SortedIntsFacts(s - {m});
      SortedCons(m, rest, s);
      assert SortedInts(s) == [m] + rest;
      forall k | 0 <= k < |SortedInts(s)| ensures SortedInts(s)[k] in s {
        assert SortedInts(s)[k] in SortedInts(s);
      }
    }
  }

  /** `rec_dct.get(c, NoAttr)`. */
  function Get<V>(rec: map<int, V>, c: int): (r: Cell<V>)
    ensures r.Present? <==> c in rec
  {
    if c in rec then Present(rec[c]) else Missing
  }

  /** The list comprehension `[rec_dct.get(c, NoAttr) for c in cols]`. */
  function CellsOf<V>(rec: map<int, V>, cols: seq<int>): (r: seq<Cell<V>>)
    ensures |r| == |cols|
    ensures forall i :: 0 <= i < |cols| ==> r[i] == Get(rec, cols[i])
  {
    if cols == [] then [] else [Get(rec, cols[0])] + CellsOf(rec, cols[1..])
  }

  /** The `cols` argument of `twalk`: left out (then `None`), `None`, a list
      or tuple of column numbers, a dictionary of field names to column
      numbers, or any other value. */
  datatype Cols = Omitted | NoCols | ColList(list: seq<int>) | ColDict(fields: map<string, int>) | OtherCols

  /** A row of `twalk`: `[row_id, cell, ...]`, or a dictionary whose `_row`
      field is the row id; `fields` holds the other fields. */
  datatype Row<V> = ListRow(id: int, cells: seq<Cell<V>>) | DictRow(id: int, fields: map<string, Cell<V>>)

  /** One row of the table for the wanted columns. */
  function RowOf<V>(id: int, rec: map<int, V>, cols: Cols): Row<V>
    requires !cols.OtherCols?
  {
    if cols.ColList? then ListRow(id, CellsOf(rec, cols.list))
    else if cols.ColDict? then DictRow(id, map k | k in cols.fields.Keys && k != "_row" :: Get(rec, cols.fields[k]))
    else ListRow(id, CellsOf(rec, SortedInts(rec.Keys)))
  }

  /** The rows for the given row ids, in order. */
  function RowsFor<V>(t: Table<V>, ids: seq<int>, cols: Cols): (r: seq<Row<V>>)
    requires !cols.OtherCols? && forall i :: 0 <= i < |ids| ==> ids[i] in t
    ensures |r| == |ids|
    ensures forall i :: 0 <= i < |ids| ==> r[i] == RowOf(ids[i], t[ids[i]], cols)
  {
    if ids == [] then []
    else
      var n := |ids| - 1;
      var init := ids[..n];
      assert forall i :: 0 <= i < n ==> init[i] == ids[i];
      RowsFor(t, init, cols) + [RowOf(ids[n], t[ids[n]], cols)]
  }

  /** The table `twalk` builds from a tabulated walk: one row per row id in
      increasing order, or nothing for a `cols` of any other type. */
  function TableOf<V>(t: Table<V>, cols: Cols): seq<Row<V>>
  {
    if cols.OtherCols? then []
    else
      SortedIntsFacts(t.Keys);
      RowsFor(t, SortedInts(t.Keys), cols)
  }

  /** The rows of a table, with the ids they are built from. */
  lemma {:induction false} TableOfAt<V>(t: Table<V>, cols: Cols, i: nat)
    requires !cols.OtherCols? && i < |TableOf(t, cols)|
    ensures var ids := SortedInts(t.Keys);
            && |TableOf(t, cols)| == |ids| && ids[i] in t
            && TableOf(t, cols)[i] == RowOf(ids[i], t[ids[i]], cols)
  {
    SortedIntsFacts(t.Keys);
  }

  /** `twalk` over the walked data. */
  function TWalkSpec<V>(walk: seq<(string, V)>, irow: int, icol: int, cols: Cols): Result<seq<Row<V>>, SnmpError>
  {
    match TabulateFrom(walk, irow, icol, map[])
    case Err(e) => Err(e)
    case Ok(t) => Ok(TableOf(t, cols))
  }

  /** The ids of some rows. */
  function Ids<V>(rows: seq<Row<V>>): (r: seq<int>)
    ensures |r| == |rows|
    ensures forall i :: 0 <= i < |rows| ==> r[i] == rows[i].id
  {
    if rows == [] then [] else [rows[0].id] + Ids(rows[1..])
  }

  /** A table holds one row per row id of the tabulation, in increasing
      order of row id. */
  lemma {:induction false} TableRowIds<V>(t: Table<V>, cols: Cols)
    requires !cols.OtherCols?
    ensures Increasing(Ids(TableOf(t, cols)))
    ensures forall id :: id in t <==> id in Ids(TableOf(t, cols))
  {
    SortedIntsFacts(t.Keys);
    RowsForIds(t, SortedInts(t.Keys), cols);
  }

  /** The rows for some ids carry those ids, in order. */
  lemma {:induction false} RowsForIds<V>(t: Table<V>, ids: seq<int>, cols: Cols)
    requires !cols.OtherCols? && forall k :: 0 <= k < |ids| ==> ids[k] in t
    ensures Ids(RowsFor(t, ids, cols)) == ids
  {
    var rows := RowsFor(t, ids, cols);
    forall i | 0 <= i < |ids| ensures Ids(rows)[i] == ids[i] {
      assert rows[i] == RowOf(ids[i], t[ids[i]], cols);
    }
  }

  /** Without `cols`, a row lists exactly the row's columns, in increasing
      column order. */
  lemma {:induction false} SortedRow<V>(t: Table<V>, cols: Cols, i: nat)
    requires cols.Omitted? || cols.NoCols?
    requires i < |TableOf(t, cols)|
    ensures var row := TableOf(t, cols)[i];
            && row.id in t && row.ListRow? && |row.cells| == |t[row.id]|
            && forall j :: 0 <= j < |row.cells| ==>
                 var c := SortedInts(t[row.id].Keys)[j];
                 c in t[row.id] && row.cells[j] == Present(t[row.id][c])
  {
    TableOfAt(t, cols, i);
    SortedIntsFacts(t[SortedInts(t.Keys)[i]].Keys);
  }

  /** With a list of columns, a row holds one cell per wanted column, in the
      list's order, `NoAttr` where the row has no such column. */
  lemma {:induction false} ListedRow<V>(t: Table<V>, cols: seq<int>, i: nat)
    requires i < |TableOf(t, ColList(cols))|
    ensures var row := TableOf(t, ColList(cols))[i];
            row.id in t &&
            var rec := t[row.id];
            && row.ListRow? && |row.cells| == |cols|
            && forall j :: 0 <= j < |cols| ==> (row.cells[j].Present? <==> cols[j] in rec)
  {
    TableOfAt(t, ColList(cols), i);
  }

  /** With a dictionary, a row holds the wanted field names except `_row`,
      each with the wanted column's value or `NoAttr`. */
  lemma {:induction false} NamedRow<V>(t: Table<V>, cols: map<string, int>, i: nat)
    requires i < |TableOf(t, ColDict(cols))|
    ensures var row := TableOf(t, ColDict(cols))[i];
            row.id in t &&
            var rec := t[row.id];
            && row.DictRow? && row.fields.Keys == cols.Keys - {"_row"}
            && forall k :: k in row.fields ==> row.fields[k] == Get(rec, cols[k])
  {
    TableOfAt(t, ColDict(cols), i);
  }

  lemma {:induction false} RowsForSnoc<V>(t: Table<V>, ids: seq<int>, i: nat, cols: Cols)
    requires !cols.OtherCols? && i < |ids| && forall k :: 0 <= k < |ids| ==> ids[k] in t
    ensures RowsFor(t, ids[..i + 1], cols) == RowsFor(t, ids[..i], cols) + [RowOf(ids[i], t[ids[i]], cols)]
  {
    assert ids[..i + 1][..i] == ids[..i];
  }

  /** The row loop of `twalk`: one row per row id, in the given order. */
  method RowsLoop<V>(t: Table<V>, ids: seq<int>, cols: Cols) returns (table: seq<Row<V>>)
    requires !cols.OtherCols? && forall k :: 0 <= k < |ids| ==> ids[k] in t
    ensures table == RowsFor(t, ids, cols)
  {
    table := [];
    var i := 0;
    while i < |ids|
      invariant i <= |ids|
      invariant table == RowsFor(t, ids[..i], cols)
    {
      RowsForSnoc(t, ids, i, cols);
      table := table + [RowOf(ids[i], t[ids[i]], cols)];
      i := i + 1;
    }
    assert ids[..i] == ids;
  }

  /** `twalk` with its loops: the tabulation of `dwalk`, then the rows. */
  method TWalk<V>(walk: seq<(string, V)>, irow: int, icol: int, cols: Cols) returns (r: Result<seq<Row<V>>, SnmpError>)
    ensures r == TWalkSpec(walk, irow, icol, cols)
  {
    var d := DWalk(walk, irow, icol);
    if d.Err? {
      return Err(d.error);
    }
    if cols.OtherCols? {
      return Ok([]);
    }
    SortedIntsFacts(d.value.Keys);
    var ids := SortedInts(d.value.Keys);
    var table := RowsLoop(d.value, ids, cols);
    return Ok(table);
  }

  // ---------------------------------------------------------------- jwalk

  /** The arguments of one `twalk` call given to `jwalk`. */
  datatype WalkArgs<V> = WalkArgs(walk: seq<(string, V)>, irow: int, icol: int, cols: Cols)

  /** What `jwalk` reads as a list specification: `None`, a list or a tuple.
      When `cols` is left out the last argument is `icol` or the OID, which
      is neither that nor a dictionary. */
  predicate ListLike(c: Cols)
  {
    c.NoCols? || c.ColList?
  }

  /** `[self.twalk(*a) for a in twalks_args]`: the tables, or the first error. */
  function TablesFor<V>(args: seq<WalkArgs<V>>): (r: Result<seq<seq<Row<V>>>, SnmpError>)
    ensures r.Ok? ==> |r.value| == |args|
    ensures r.Ok? ==> forall i :: 0 <= i < |args| ==>
              TWalkSpec(args[i].walk, args[i].irow, args[i].icol, args[i].cols) == Ok(r.value[i])
  {
    if args == [] then Ok([])
    else
      var a := args[|args| - 1];
      match TablesFor(args[..|args| - 1])
      case Err(e) => Err(e)
      case Ok(ts) =>
        match TWalkSpec(a.walk, a.irow, a.icol, a.cols)
        case Err(e) => Err(e)
        case Ok(t) => Ok(ts + [t])
  }

  /** The rows of all tables, table after table. */
  function Flatten<V>(tables: seq<seq<Row<V>>>): seq<Row<V>>
  {
    if tables == [] then [] else Flatten(tables[..|tables| - 1]) + tables[|tables| - 1]
  }

  predicate AllListRows<V>(rows: seq<Row<V>>)
  {
    forall i :: 0 <= i < |rows| ==> rows[i].ListRow?
  }

  predicate AllDictRows<V>(rows: seq<Row<V>>)
  {
    forall i :: 0 <= i < |rows| ==> rows[i].DictRow?
  }

  /** `l = dct.setdefault(row_id, [row_id]); l += row[1:]` for one row. */
  function AddListRow<V>(acc: map<int, seq<Cell<V>>>, row: Row<V>): map<int, seq<Cell<V>>>
    requires row.ListRow?
  {
    acc[row.id := (if row.id in acc then acc[row.id] else []) + row.cells]
  }

  /** `dct.setdefault(row_id, {}).update(row)` for one row. */
  function AddDictRow<V>(acc: map<int, map<string, Cell<V>>>, row: Row<V>): map<int, map<string, Cell<V>>>
    requires row.DictRow?
  {
    acc[row.id := (if row.id in acc then acc[row.id] else map[]) + row.fields]
  }

  function MergeLists<V>(rows: seq<Row<V>>, acc: map<int, seq<Cell<V>>>): map<int, seq<Cell<V>>>
    requires AllListRows(rows)
    decreases |rows|
  {
    if rows == [] then acc else MergeLists(rows[1..], AddListRow(acc, rows[0]))
  }

  function MergeDicts<V>(rows: seq<Row<V>>, acc: map<int, map<string, Cell<V>>>): map<int, map<string, Cell<V>>>
    requires AllDictRows(rows)
    decreases |rows|
  {
    if rows == [] then acc else MergeDicts(rows[1..], AddDictRow(acc, rows[0]))
  }

  /** The merged rows, sorted by row id. */
  function ListRowsOf<V>(acc: map<int, seq<Cell<V>>>, ids: seq<int>): (r: seq<Row<V>>)
    requires forall i :: 0 <= i < |ids| ==> ids[i] in acc
    ensures |r| == |ids|
    ensures forall i :: 0 <= i < |ids| ==> r[i] == ListRow(ids[i], acc[ids[i]])
  {
    if ids == [] then [] else [ListRow(ids[0], acc[ids[0]])] + ListRowsOf(acc, ids[1..])
  }

  function DictRowsOf<V>(acc: map<int, map<string, Cell<V>>>, ids: seq<int>): (r: seq<Row<V>>)
    requires forall i :: 0 <= i < |ids| ==> ids[i] in acc
    ensures |r| == |ids|
    ensures forall i :: 0 <= i < |ids| ==> r[i] == DictRow(ids[i], acc[ids[i]])
  {
    if ids == [] then [] else [DictRow(ids[0], acc[ids[0]])] + DictRowsOf(acc, ids[1..])
  }

  /** The joined rows carry the ids they are built for, in order. */
  lemma {:induction false} ListRowsIds<V>(acc: map<int, seq<Cell<V>>>, ids: seq<int>)
    requires forall i :: 0 <= i < |ids| ==> ids[i] in acc
    ensures Ids(ListRowsOf(acc, ids)) == ids
  {
    var rows := ListRowsOf(acc, ids);
    forall i | 0 <= i < |ids| ensures Ids(rows)[i] == ids[i] {
      assert rows[i] == ListRow(ids[i], acc[ids[i]]);
    }
  }

  lemma {:induction false} DictRowsIds<V>(acc: map<int, map<string, Cell<V>>>, ids: seq<int>)
    requires forall i :: 0 <= i < |ids| ==> ids[i] in acc
    ensures Ids(DictRowsOf(acc, ids)) == ids
  {
    var rows := DictRowsOf(acc, ids);
    forall i | 0 <= i < |ids| ensures Ids(rows)[i] == ids[i] {
      assert rows[i] == DictRow(ids[i], acc[ids[i]]);
    }
  }

  const ListsExpected := "All wanted columns specifications must be lists/tuples/None"
  const DictsExpected := "All wanted columns specifications must be dicts"

  /** A `twalk` table for a list-like specification is made of list rows,
      one for a dictionary of dictionary rows. */
  lemma {:induction false} TableRowKinds<V>(t: Table<V>, cols: Cols)
    ensures ListLike(cols) ==> AllListRows(TableOf(t, cols))
    ensures cols.ColDict? ==> AllDictRows(TableOf(t, cols))
  {
    if !cols.OtherCols? {
      forall i | 0 <= i < |TableOf(t, cols)|
        ensures ListLike(cols) ==> TableOf(t, cols)[i].ListRow?
        ensures cols.ColDict? ==> TableOf(t, cols)[i].DictRow?
      {
        TableOfAt(t, cols, i);
      }
    }
  }

  /** Each table has the kind of rows its specification asks for. */
  predicate KindsMatch<V>(args: seq<WalkArgs<V>>, tables: seq<seq<Row<V>>>)
  {
    && |args| == |tables|
    && (forall i :: 0 <= i < |args| && ListLike(args[i].cols) ==> AllListRows(tables[i]))
    && (forall i :: 0 <= i < |args| && args[i].cols.ColDict? ==> AllDictRows(tables[i]))
  }

  lemma {:induction false} TablesKinds<V>(args: seq<WalkArgs<V>>)
    requires TablesFor(args).Ok?
    ensures KindsMatch(args, TablesFor(args).value)
  {
    var tables := TablesFor(args).value;
    forall i | 0 <= i < |args|
      ensures ListLike(args[i].cols) ==> AllListRows(tables[i])
      ensures args[i].cols.ColDict? ==> AllDictRows(tables[i])
    {
      var a := args[i];
      assert TWalkSpec(a.walk, a.irow, a.icol, a.cols) == Ok(tables[i]);
      TableRowKinds(TabulateFrom(a.walk, a.irow, a.icol, map[]).value, a.cols);
    }
  }

  lemma {:induction false} FlattenKinds<V>(args: seq<WalkArgs<V>>, tables: seq<seq<Row<V>>>)
    requires KindsMatch(args, tables)
    decreases |tables|
    ensures (forall i :: 0 <= i < |args| ==> ListLike(args[i].cols)) ==> AllListRows(Flatten(tables))
    ensures (forall i :: 0 <= i < |args| ==> args[i].cols.ColDict?) ==> AllDictRows(Flatten(tables))
  {
    if tables != [] {
      var n := |tables| - 1;
      FlattenKinds(args[..n], tables[..n]);
      assert Flatten(tables) == Flatten(tables[..n]) + tables[n];
    }
  }

  /** The part of `jwalk` after the tables: the argument checks, then the
      merge of the rows by row id, sorted by row id. */
  function Joined<V>(args: seq<WalkArgs<V>>, tables: seq<seq<Row<V>>>): Result<seq<Row<V>>, SnmpError>
    requires KindsMatch(args, tables)
  {
    if args == [] then Err(IndexError)
    else if ListLike(args[0].cols) then
      if exists i :: 0 <= i < |args| && !ListLike(args[i].cols) then Err(AssertionError(ListsExpected))
      else
        FlattenKinds(args, tables);
        var acc := MergeLists(Flatten(tables), map[]);
        SortedIntsFacts(acc.Keys);
        Ok(ListRowsOf(acc, SortedInts(acc.Keys)))
    else if exists i :: 0 <= i < |args| && !args[i].cols.ColDict? then Err(AssertionError(DictsExpected))
    else
      FlattenKinds(args, tables);
      var acc := MergeDicts(Flatten(tables), map[]);
      SortedIntsFacts(acc.Keys);
      Ok(DictRowsOf(acc, SortedInts(acc.Keys)))
  }

  /** `jwalk(*twalks_args)`: all tables first, then the rest. */
  function JWalkSpec<V>(args: seq<WalkArgs<V>>): Result<seq<Row<V>>, SnmpError>
  {
    match TablesFor(args)
    case Err(e) => Err(e)
    case Ok(tables) =>
      TablesKinds(args);
      Joined(args, tables)
  }

  /** The cells the rows with a given id contribute, in order. */
  function CellsFor<V>(rows: seq<Row<V>>, id: int): seq<Cell<V>>
    requires AllListRows(rows)
    decreases |rows|
  {
    if rows == [] then [] else (if rows[0].id == id then rows[0].cells else []) + CellsFor(rows[1..], id)
  }

  /** The list merge has a row for every row id it already had or meets,
      and that row is the cells it already had followed by the cells of
      every row with that id, in order. */
  lemma {:induction false} MergeListsCells<V>(rows: seq<Row<V>>, acc: map<int, seq<Cell<V>>>, id: int)
    requires AllListRows(rows)
    decreases |rows|
    ensures id in MergeLists(rows, acc) <==> id in acc || id in Ids(rows)
    ensures id in MergeLists(rows, acc) ==>
              MergeLists(rows, acc)[id] == (if id in acc then acc[id] else []) + CellsFor(rows, id)
  {
    if rows != [] {
      var acc1 := AddListRow(acc, rows[0]);
      MergeListsCells(rows[1..], acc1, id);
      assert MergeLists(rows, acc) == MergeLists(rows[1..], acc1);
      assert Ids(rows) == [rows[0].id] + Ids(rows[1..]);
      var base := if id in acc then acc[id] else [];
      var own := if rows[0].id == id then rows[0].cells else [];
      assert CellsFor(rows, id) == own + CellsFor(rows[1..], id);
      assert id in acc1 <==> id in acc || id == rows[0].id;
      assert id in acc1 ==> acc1[id] == base + own;
      AppendAssoc(base, own, CellsFor(rows[1..], id));
    }
  }

  predicate HasField<V>(acc: map<int, map<string, Cell<V>>>, id: int, k: string)
  {
    id in acc && k in acc[id]
  }

  predicate RowHas<V>(row: Row<V>, id: int, k: string)
  {
    row.DictRow? && row.id == id && k in row.fields
  }

  /** The dictionary merge has a row for every row id it already had or
      meets, with a field wherever it had one or a merged row has one. */
  lemma {:induction false} MergeDictsFields<V>(rows: seq<Row<V>>, acc: map<int, map<string, Cell<V>>>,
                                               id: int, k: string)
    requires AllDictRows(rows)
    decreases |rows|
    ensures id in MergeDicts(rows, acc) <==> id in acc || id in Ids(rows)
    ensures HasField(MergeDicts(rows, acc), id, k) <==>
            HasField(acc, id, k) || exists j :: 0 <= j < |rows| && RowHas(rows[j], id, k)
  {
    if rows != [] {
      var acc1 := AddDictRow(acc, rows[0]);
      MergeDictsFields(rows[1..], acc1, id, k);
      assert Ids(rows) == [rows[0].id] + Ids(rows[1..]);
      if exists j :: 0 <= j < |rows[1..]| && RowHas(rows[1..][j], id, k) {
        var j :| 0 <= j < |rows[1..]| && RowHas(rows[1..][j], id, k);
        assert rows[1..][j] == rows[j + 1];
      }
      if exists j :: 0 <= j < |rows| && RowHas(rows[j], id, k) {
        var j :| 0 <= j < |rows| && RowHas(rows[j], id, k);
        if j > 0 { assert rows[j] == rows[1..][j - 1]; }
      }
    }
  }

  /** A field no later row sets keeps its value. */
  lemma {:induction false} MergeDictsKeeps<V>(rows: seq<Row<V>>, acc: map<int, map<string, Cell<V>>>,
                                              id: int, k: string)
    requires AllDictRows(rows) && HasField(acc, id, k)
    requires forall j :: 0 <= j < |rows| ==> !RowHas(rows[j], id, k)
    decreases |rows|
    ensures HasField(MergeDicts(rows, acc), id, k)
    ensures MergeDicts(rows, acc)[id][k] == acc[id][k]
  {
    if rows != [] {
      assert !RowHas(rows[0], id, k);
      forall j | 0 <= j < |rows[1..]| ensures !RowHas(rows[1..][j], id, k) {
        assert rows[1..][j] == rows[j + 1];
      }
      MergeDictsKeeps(rows[1..], AddDictRow(acc, rows[0]), id, k);
    }
  }

  /** A merged field holds the value of the LAST row setting it: `update`
      overwrites. */
  lemma {:induction false} MergeDictsLastWins<V>(rows: seq<Row<V>>, acc: map<int, map<string, Cell<V>>>,
                                                 j: nat, id: int, k: string)
    requires AllDictRows(rows)
    requires j < |rows| && RowHas(rows[j], id, k)
    requires forall i :: j < i < |rows| ==> !RowHas(rows[i], id, k)
    decreases |rows|
    ensures HasField(MergeDicts(rows, acc), id, k)
    ensures MergeDicts(rows, acc)[id][k] == rows[j].fields[k]
  {
    var acc1 := AddDictRow(acc, rows[0]);
    if j == 0 {
      forall i | 0 <= i < |rows[1..]| ensures !RowHas(rows[1..][i], id, k) {
        assert rows[1..][i] == rows[i + 1];
      }
      MergeDictsKeeps(rows[1..], acc1, id, k);
    } else {
      forall i | j - 1 < i < |rows[1..]| ensures !RowHas(rows[1..][i], id, k) {
        assert rows[1..][i] == rows[i + 1];
      }
      MergeDictsLastWins(rows[1..], acc1, j - 1, id, k);
    }
  }

  /** The rows of `jwalk` have increasing, distinct row ids, one for every
      row id of every table. */
  lemma {:induction false} JoinedRowIds<V>(args: seq<WalkArgs<V>>, tables: seq<seq<Row<V>>>)
    requires KindsMatch(args, tables) && Joined(args, tables).Ok?
    ensures var r := Joined(args, tables).value;
            && Increasing(Ids(r))
            && forall id :: id in Ids(r) <==> id in Ids(Flatten(tables))
  {
    var rows := Flatten(tables);
    FlattenKinds(args, tables);
    var r := Joined(args, tables).value;
    if ListLike(args[0].cols) {
      var acc := MergeLists(rows, map[]);
      SortedIntsFacts(acc.Keys);
      assert r == ListRowsOf(acc, SortedInts(acc.Keys));
      forall id ensures id in acc <==> id in Ids(rows) { MergeListsCells(rows, map[], id); }
      ListRowsIds(acc, SortedInts(acc.Keys));
    } else {
      var acc := MergeDicts(rows, map[]);
      SortedIntsFacts(acc.Keys);
      assert r == DictRowsOf(acc, SortedInts(acc.Keys));
      forall id ensures id in acc <==> id in Ids(rows) { MergeDictsFields(rows, map[], id, ""); }
      DictRowsIds(acc, SortedInts(acc.Keys));
    }
  }

  /** With list specifications, the row of `jwalk` for a row id is that id
      followed by the cells of every table's row with that id, table after
      table. */
  lemma {:induction false} JoinedListed<V>(args: seq<WalkArgs<V>>, tables: seq<seq<Row<V>>>, i: nat)
    requires KindsMatch(args, tables) && Joined(args, tables).Ok? && ListLike(args[0].cols)
    requires i < |Joined(args, tables).value|
    ensures AllListRows(Flatten(tables))
    ensures var row := Joined(args, tables).value[i];
            row == ListRow(row.id, CellsFor(Flatten(tables), row.id))
  {
    FlattenKinds(args, tables);
    var rows := Flatten(tables);
    var acc := MergeLists(rows, map[]);
    var ids := SortedInts(acc.Keys);
    SortedIntsFacts(acc.Keys);
    assert Joined(args, tables) == Ok(ListRowsOf(acc, ids));
    MergeListsCells(rows, map[], ids[i]);
    assert acc[ids[i]] == CellsFor(rows, ids[i]);
  }

  /** With dictionary specifications, the row of `jwalk` for a row id holds
      the merged fields of every table's row with that id (see
      `MergeDictsFields` and `MergeDictsLastWins`). */
  lemma {:induction false} JoinedNamed<V>(args: seq<WalkArgs<V>>, tables: seq<seq<Row<V>>>, i: nat)
    requires KindsMatch(args, tables) && Joined(args, tables).Ok? && !ListLike(args[0].cols)
    requires i < |Joined(args, tables).value|
    ensures AllDictRows(Flatten(tables))
    ensures var row := Joined(args, tables).value[i];
            && row.id in MergeDicts(Flatten(tables), map[])
            && row == DictRow(row.id, MergeDicts(Flatten(tables), map[])[row.id])
  {
    FlattenKinds(args, tables);
    SortedIntsFacts(MergeDicts(Flatten(tables), map[]).Keys);
  }

  /** An error of an earlier `twalk` call is the error of the whole list. */
  lemma {:induction false} TablesForPrefixErr<V>(args: seq<WalkArgs<V>>, n: nat)
    requires n <= |args| && TablesFor(args[..n]).Err?
    decreases |args|
    ensures TablesFor(args) == TablesFor(args[..n])
  {
    if n < |args| {
      var m := |args| - 1;
      assert args[..m][..n] == args[..n];
      TablesForPrefixErr(args[..m], n);
    } else {
      assert args[..n] == args;
    }
  }

  lemma {:induction false} MergeListsSnoc<V>(rows: seq<Row<V>>, row: Row<V>, acc: map<int, seq<Cell<V>>>)
    requires AllListRows(rows) && row.ListRow?
    decreases |rows|
    ensures AllListRows(rows + [row])
    ensures MergeLists(rows + [row], acc) == AddListRow(MergeLists(rows, acc), row)
  {
    if rows != [] {
      assert (rows + [row])[1..] == rows[1..] + [row];
      MergeListsSnoc(rows[1..], row, AddListRow(acc, rows[0]));
    }
  }

  lemma {:induction false} MergeDictsSnoc<V>(rows: seq<Row<V>>, row: Row<V>, acc: map<int, map<string, Cell<V>>>)
    requires AllDictRows(rows) && row.DictRow?
    decreases |rows|
    ensures AllDictRows(rows + [row])
    ensures MergeDicts(rows + [row], acc) == AddDictRow(MergeDicts(rows, acc), row)
  {
    if rows != [] {
      assert (rows + [row])[1..] == rows[1..] + [row];
      MergeDictsSnoc(rows[1..], row, AddDictRow(acc, rows[0]));
    }
  }

  /** `jwalk` with its loops. */
  method JWalk<V>(args: seq<WalkArgs<V>>) returns (r: Result<seq<Row<V>>, SnmpError>)
    ensures r == JWalkSpec(args)
  {
    var tables: seq<seq<Row<V>>> := [];
    var i := 0;
    while i < |args|
      invariant i <= |args|
      invariant TablesFor(args[..i]) == Ok(tables)
    {
      assert args[..i + 1][..i] == args[..i];
      var t := TWalk(args[i].walk, args[i].irow, args[i].icol, args[i].cols);
      if t.Err? {
        TablesForPrefixErr(args, i + 1);
        return Err(t.error);
      }
      tables := tables + [t.value];
      i := i + 1;
    }
    assert args[..i] == args;
    TablesKinds(args);
    r := JoinTables(args, tables);
  }

  /** The `for table in tables: for row in table` loop of `jwalk` for
      list rows. */
  method MergeListRows<V>(rows: seq<Row<V>>) returns (acc: map<int, seq<Cell<V>>>)
    requires AllListRows(rows)
    ensures acc == MergeLists(rows, map[])
  {
    acc := map[];
    var j := 0;
    while j < |rows|
      invariant j <= |rows|
      invariant AllListRows(rows[..j]) && acc == MergeLists(rows[..j], map[])
    {
      assert rows[..j + 1] == rows[..j] + [rows[j]];
      MergeListsSnoc(rows[..j], rows[j], map[]);
      acc := AddListRow(acc, rows[j]);
      j := j + 1;
    }
    assert rows[..j] == rows;
  }

  /** The same loop for dictionary rows. */
  method MergeDictRows<V>(rows: seq<Row<V>>) returns (acc: map<int, map<string, Cell<V>>>)
    requires AllDictRows(rows)
    ensures acc == MergeDicts(rows, map[])
  {
    acc := map[];
    var j := 0;
    while j < |rows|
      invariant j <= |rows|
      invariant AllDictRows(rows[..j]) && acc == MergeDicts(rows[..j], map[])
    {
      assert rows[..j + 1] == rows[..j] + [rows[j]];
      MergeDictsSnoc(rows[..j], rows[j], map[]);
      acc := AddDictRow(acc, rows[j]);
      j := j + 1;
    }
    assert rows[..j] == rows;
  }

  /** The `assert all(...)` of `jwalk` on list specifications. */
  method AllListLike<V>(args: seq<WalkArgs<V>>) returns (b: bool)
    ensures b <==> forall k :: 0 <= k < |args| ==> ListLike(args[k].cols)
  {
    var j := 0;
    while j < |args|
      invariant j <= |args|
      invariant forall k :: 0 <= k < j ==> ListLike(args[k].cols)
    {
      if !ListLike(args[j].cols) {
        return false;
      }
      j := j + 1;
    }
    return true;
  }

  /** The same check on dictionary specifications. */
  method AllDictLike<V>(args: seq<WalkArgs<V>>) returns (b: bool)
    ensures b <==> forall k :: 0 <= k < |args| ==> args[k].cols.ColDict?
  {
    var j := 0;
    while j < |args|
      invariant j <= |args|
      invariant forall k :: 0 <= k < j ==> args[k].cols.ColDict?
    {
      if !args[j].cols.ColDict? {
        return false;
      }
      j := j + 1;
    }
    return true;
  }

  /** The loops of `jwalk` after the tables are made. */
  method JoinTables<V>(args: seq<WalkArgs<V>>, tables: seq<seq<Row<V>>>) returns (r: Result<seq<Row<V>>, SnmpError>)
    requires KindsMatch(args, tables)
    ensures r == Joined(args, tables)
  {
    if |args| == 0 {
      return Err(IndexError);
    }
    FlattenKinds(args, tables);
    var rows := Flatten(tables);
    if ListLike(args[0].cols) {
      var ok := AllListLike(args);
      if !ok {
        return Err(AssertionError(ListsExpected));
      }
      var acc := MergeListRows(rows);
      SortedIntsFacts(acc.Keys);
      return Ok(ListRowsOf(acc, SortedInts(acc.Keys)));
    } else {
      var ok := AllDictLike(args);
      if !ok {
        return Err(AssertionError(DictsExpected));
      }
      var acc := MergeDictRows(rows);
      SortedIntsFacts(acc.Keys);
      return Ok(DictRowsOf(acc, SortedInts(acc.Keys)));
    }
  }
}
