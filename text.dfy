// Python 2 byte-string operations that the library relies on, written out:
// `split`, `join`, `splitlines`, `strip`, `replace`, `lower`, `int()` and
// `str()` of an integer, and the two regular-expression clean-ups that the
// sessions apply to command output.
module Text {
  import opened Results

  /** Whitespace of Python 2 `str.isspace`, `str.strip` and the regex class `\s`. */
  predicate IsWhite(c: char) {
    c == ' ' || c == '\t' || c == '\n' || c == '\r' || c == '\U{0B}' || c == '\U{0C}'
  }

  predicate IsLineBreak(c: char) { c == '\n' || c == '\r' }

  /** `re.search(r'\S', s)` succeeds. */
  predicate HasNonWhite(s: string) {
    exists i :: 0 <= i < |s| && !IsWhite(s[i])
  }

  predicate IsDigit(c: char) { '0' <= c <= '9' }

  /** `t` occurs in `s` at index `i`. */
  predicate OccursAt(s: string, t: string, i: nat) {
    i + |t| <= |s| && s[i..i + |t|] == t
  }

  /** `t in s` for strings. */
  predicate Contains(s: string, t: string) {
    exists i :: 0 <= i <= |s| && OccursAt(s, t, i)
  }

  predicate StartsWith(s: string, t: string) { |t| <= |s| && s[..|t|] == t }

  predicate EndsWith(s: string, t: string) { |t| <= |s| && s[|s| - |t|..] == t }

  // ---------------------------------------------------------------- search

  /** Index of the first `c` in `s`, or `|s|` when there is none. */
  function IndexOfChar(s: string, c: char): (i: nat)
    ensures i <= |s|
    ensures i < |s| ==> s[i] == c
    ensures forall k :: 0 <= k < i ==> s[k] != c
  {
    if s == [] then 0
    else if s[0] == c then 0
    else 1 + IndexOfChar(s[1..], c)
  }

  /** Index of the first line break in `s`, or `|s|` when there is none. */
  function IndexOfBreak(s: string): (i: nat)
    ensures i <= |s|
    ensures i < |s| ==> IsLineBreak(s[i])
    ensures forall k :: 0 <= k < i ==> !IsLineBreak(s[k])
  {
    if s == [] then 0
    else if IsLineBreak(s[0]) then 0
    else 1 + IndexOfBreak(s[1..])
  }

  /** Start of the first occurrence of `t` in `s` at or after `from`, if any. */
  function FindFrom(s: string, t: string, from: nat): (r: Option<nat>)
    decreases |s| - from
    ensures r.Some? ==> from <= r.value && r.value + |t| <= |s|
  {
    if from + |t| > |s| then None
    else if s[from..from + |t|] == t then Some(from)
    else FindFrom(s, t, from + 1)
  }

  /** `FindFrom` answers the first occurrence at or after `from`. */
  lemma {:induction false} FindFromSpec(s: string, t: string, from: nat)
    decreases |s| - from
    ensures var r := FindFrom(s, t, from);
            && (r.None? ==> forall i: nat :: from <= i ==> !OccursAt(s, t, i))
            && (r.Some? ==> OccursAt(s, t, r.value))
            && (r.Some? ==> forall i: nat :: from <= i < r.value ==> !OccursAt(s, t, i))
  {
    if from + |t| <= |s| && s[from..from + |t|] != t {
      FindFromSpec(s, t, from + 1);
    }
  }

  /** First occurrence of `t` in `s` (`str.find` when it is not -1). */
  function Find(s: string, t: string): (r: Option<nat>)
    ensures r.Some? ==> r.value + |t| <= |s|
  {
    FindFrom(s, t, 0)
  }

  /** `Find` answers `None` exactly when `t` does not occur, and otherwise the
      first place where it occurs. */
  lemma {:induction false} FindSpec(s: string, t: string)
    ensures Find(s, t).None? <==> !Contains(s, t)
    ensures Find(s, t).Some? ==> OccursAt(s, t, Find(s, t).value)
    ensures Find(s, t).Some? ==> forall i: nat :: i < Find(s, t).value ==> !OccursAt(s, t, i)
  {
    FindFromSpec(s, t, 0);
  }

  // ---------------------------------------------------------------- split and join

  /** `sep.join(parts)`. */
  function Join(parts: seq<string>, sep: string): string
  {
    if |parts| == 0 then ""
    else if |parts| == 1 then parts[0]
    else parts[0] + sep + Join(parts[1..], sep)
  }

  /** `s.split(c)` for a one-character separator: always at least one piece. */
  function Split(s: string, c: char): (r: seq<string>)
    decreases |s|
    ensures |r| >= 1
    ensures forall k :: 0 <= k < |r| ==> c !in r[k]
  {
    var i := IndexOfChar(s, c);
    if i == |s| then [s]
    else [s[..i]] + Split(s[i + 1..], c)
  }

  /** `s.count(c)` for one character. */
  function CountChar(s: string, c: char): nat
  {
    if s == [] then 0 else (if s[0] == c then 1 else 0) + CountChar(s[1..], c)
  }

  lemma {:induction false} CountCharAppend(a: string, b: string, c: char)
    ensures CountChar(a + b, c) == CountChar(a, c) + CountChar(b, c)
  {
    if a == [] {
      assert a + b == b;
    } else {
      assert (a + b)[0] == a[0] && (a + b)[1..] == a[1..] + b;
      CountCharAppend(a[1..], b, c);
    }
  }

  lemma {:induction false} CountCharAbsent(s: string, c: char)
    requires c !in s
    ensures CountChar(s, c) == 0
  {
    if s != [] {
      CountCharAbsent(s[1..], c);
    }
  }

  /** `s.split(c)` has one piece more than `s` has `c`s. */
  lemma {:induction false} SplitCount(s: string, c: char)
    decreases |s|
    ensures |Split(s, c)| == CountChar(s, c) + 1
  {
    var i := IndexOfChar(s, c);
    assert c !in s[..i];
    CountCharAbsent(s[..i], c);
    if i == |s| {
      assert s[..i] == s;
    } else {
      SplitCount(s[i + 1..], c);
      assert s == s[..i] + ([c] + s[i + 1..]);
      CountCharAppend(s[..i], [c] + s[i + 1..], c);
      assert ([c] + s[i + 1..])[1..] == s[i + 1..];
    }
  }

  /** Joining the pieces of `s.split(c)` with `c` gives `s` back. */
  lemma {:induction false} JoinSplit(s: string, c: char)
    decreases |s|
    ensures Join(Split(s, c), [c]) == s
  {
    var i := IndexOfChar(s, c);
    if i < |s| {
      var rest := s[i + 1..];
      JoinSplit(rest, c);
      assert Split(s, c) == [s[..i]] + Split(rest, c);
      assert s == s[..i] + [c] + rest;
    }
  }

  /** Splitting pieces joined with a separator none of them holds gives the
      pieces back. */
  lemma {:induction false} SplitJoin(parts: seq<string>, c: char)
    requires parts != [] && forall k :: 0 <= k < |parts| ==> c !in parts[k]
    decreases |parts|
    ensures Split(Join(parts, [c]), c) == parts
  {
    if |parts| > 1 {
      var x := parts[0];
      var rest := Join(parts[1..], [c]);
      var s := x + [c] + rest;
      assert Join(parts, [c]) == s;
      assert IndexOfChar(s, c) == |x| by {
        assert s[|x|] == c;
        assert forall k :: 0 <= k < |x| ==> s[k] == x[k];
      }
      assert s[..|x|] == x && s[|x| + 1..] == rest;
      SplitJoin(parts[1..], c);
    } else {
      assert IndexOfChar(parts[0], c) == |parts[0]|;
    }
  }

  /** Each piece passed through `f` (a `str.format` with a context, say). */
  function Mapped(xs: seq<string>, f: string -> string): (r: seq<string>)
    ensures |r| == |xs|
  {
    if xs == [] then [] else [f(xs[0])] + Mapped(xs[1..], f)
  }

  /** Python 2 `str.splitlines()`: lines end at `\n`, `\r` or `\r\n`; the
      terminator is dropped and a final terminator opens no extra line. */
  function SplitLines(s: string): seq<string>
    decreases |s|
  {
    if s == [] then []
    else
      var i := IndexOfBreak(s);
      if i == |s| then [s]
      else
        [s[..i]] + SplitLines(s[i + BreakLength(s, i)..])
  }

  /** Only the empty text has no lines. */
  lemma {:induction false} SplitLinesEmpty(s: string)
    ensures SplitLines(s) == [] <==> s == []
  {
    if s != [] {
      var i := IndexOfBreak(s);
      if i < |s| { SplitLinesAt(s, i); }
    }
  }

  /** No line of `splitlines()` holds a line break. */
  lemma {:induction false} SplitLinesHaveNoBreak(s: string)
    decreases |s|
    ensures forall k :: 0 <= k < |SplitLines(s)| ==> '\n' !in SplitLines(s)[k] && '\r' !in SplitLines(s)[k]
  {
    if s != [] {
      var i := IndexOfBreak(s);
      if i < |s| {
        SplitLinesHaveNoBreak(s[i + BreakLength(s, i)..]);
      }
    }
  }

  /** The length of the line terminator at `i`: 2 for "\r\n", otherwise 1. */
  function BreakLength(s: string, i: nat): (n: nat)
    requires i < |s|
    ensures 1 <= n <= 2 && i + n <= |s|
  {
    if s[i] == '\r' && i + 1 < |s| && s[i + 1] == '\n' then 2 else 1
  }

  /** Without `\r`, joining the lines with `\n` gives the text minus one final `\n`. */
  lemma {:induction false} JoinSplitLines(s: string)
    requires forall k :: 0 <= k < |s| ==> s[k] != '\r'
    decreases |s|
    ensures Join(SplitLines(s), "\n") == if s != [] && s[|s| - 1] == '\n' then s[..|s| - 1] else s
  {
    if s != [] {
      var i := IndexOfBreak(s);
      if i < |s| {
        var rest := s[i + 1..];
        var line := s[..i];
        SplitLinesAtNewline(s, i);
        assert forall k :: 0 <= k < |rest| ==> rest[k] == s[i + 1 + k];
        JoinSplitLines(rest);
        JoinCons(line, SplitLines(rest), "\n");
        JoinSplitLinesStep(s, i, Join(SplitLines(rest), "\n"));
      } else {
        SplitLinesOfLine(s);
      }
    }
  }

  lemma {:induction false} SplitLinesOfLine(s: string)
    requires s != [] && IndexOfBreak(s) == |s|
    ensures SplitLines(s) == [s] && Join(SplitLines(s), "\n") == s && s[|s| - 1] != '\n'
  {
    assert s[|s| - 1] != '\n';
  }

  lemma {:induction false} SplitLinesAt(s: string, i: nat)
    requires i < |s| && IndexOfBreak(s) == i
    ensures SplitLines(s) == [s[..i]] + SplitLines(s[i + BreakLength(s, i)..])
  {
  }

  lemma {:induction false} IndexOfBreakNone(s: string)
    requires forall k :: 0 <= k < |s| ==> !IsLineBreak(s[k])
    ensures IndexOfBreak(s) == |s|
  {
  }

  lemma {:induction false} SplitLinesAtNewline(s: string, i: nat)
    requires i < |s| && IndexOfBreak(s) == i && s[i] == '\n'
    ensures SplitLines(s) == [s[..i]] + SplitLines(s[i + 1..])
  {
    assert BreakLength(s, i) == 1;
  }

  lemma {:induction false} JoinSplitLinesStep(s: string, i: nat, j: string)
    requires i < |s| && s[i] == '\n'
    requires var rest := s[i + 1..];
             j == if rest != [] && rest[|rest| - 1] == '\n' then rest[..|rest| - 1] else rest
    ensures (if s[i + 1..] == [] then s[..i] else s[..i] + "\n" + j)
            == if s[|s| - 1] == '\n' then s[..|s| - 1] else s
  {
    var rest := s[i + 1..];
    assert s == s[..i] + "\n" + rest;
    if rest != [] {
      assert s[|s| - 1] == rest[|rest| - 1];
      if rest[|rest| - 1] == '\n' {
        assert s[..|s| - 1] == s[..i] + "\n" + rest[..|rest| - 1];
      }
    }
  }

  lemma {:induction false} AppendAssoc<T>(a: seq<T>, b: seq<T>, c: seq<T>)
    ensures a + b + c == a + (b + c)
  {
  }

  lemma {:induction false} MappedCons(x: string, xs: seq<string>, f: string -> string)
    ensures Mapped([x] + xs, f) == [f(x)] + Mapped(xs, f)
  {
    assert ([x] + xs)[1..] == xs;
  }

  lemma {:induction false} DropDrop<T>(s: seq<T>, n: nat)
    requires s != [] && n < |s|
    ensures s[1..][n..] == s[n + 1..]
  {
  }

  lemma {:induction false} JoinCons(x: string, xs: seq<string>, sep: string)
    ensures Join([x] + xs, sep) == if xs == [] then x else x + sep + Join(xs, sep)
  {
    if xs != [] {
      assert ([x] + xs)[1..] == xs;
    }
  }

  // ---------------------------------------------------------------- replace and strip

  /** `s.replace(c, '')`. */
  function DeleteChar(s: string, c: char): string
  {
    if s == [] then []
    else if s[0] == c then DeleteChar(s[1..], c)
    else [s[0]] + DeleteChar(s[1..], c)
  }

  /** Deleting `c` leaves no `c` and keeps every other character, in order:
      the result is what remains of `s` with its `c`s taken out. */
  lemma {:induction false} DeleteCharRemoves(s: string, c: char)
    decreases |s|
    ensures c !in DeleteChar(s, c)
    ensures |DeleteChar(s, c)| <= |s|
    ensures multiset(DeleteChar(s, c)) == multiset(s)[c := 0]
  {
    if s != [] {
      DeleteCharRemoves(s[1..], c);
      assert s == [s[0]] + s[1..];
      assert multiset(s) == multiset([s[0]]) + multiset(s[1..]);
    }
  }

  /** `s.replace(a, b)` for single characters. */
  function ReplaceChar(s: string, a: char, b: char): (r: string)
    ensures |r| == |s|
    ensures forall k :: 0 <= k < |s| ==> r[k] == (if s[k] == a then b else s[k])
  {
    if s == [] then []
    else [if s[0] == a then b else s[0]] + ReplaceChar(s[1..], a, b)
  }

  /** `re.sub(r'[\r\n]*$', '', s)`: the longest run of line breaks at the end goes. */
  function StripTrailingBreaks(s: string): (r: string)
    ensures StartsWith(s, r)
    ensures r == [] || !IsLineBreak(r[|r| - 1])
    ensures forall k :: |r| <= k < |s| ==> IsLineBreak(s[k])
  {
    if s == [] then []
    else if IsLineBreak(s[|s| - 1]) then StripTrailingBreaks(s[..|s| - 1])
    else s
  }

  /** The longest prefix of `s` made of `\n` only. */
  function LeadingNewlines(s: string): (n: nat)
    ensures n <= |s|
    ensures forall k :: 0 <= k < n ==> s[k] == '\n'
    ensures n == |s| || s[n] != '\n'
  {
    if s == [] || s[0] != '\n' then 0 else 1 + LeadingNewlines(s[1..])
  }

  function DropLeading(s: string): string
  {
    if s == [] || IsWhite(s[0]) == false then s else DropLeading(s[1..])
  }

  function DropTrailing(s: string): string
  {
    if s == [] || IsWhite(s[|s| - 1]) == false then s else DropTrailing(s[..|s| - 1])
  }

  /** `s.strip()`: whitespace goes from both ends, the rest is a slice of `s`. */
  function Strip(s: string): (r: string)
    ensures r == [] || (!IsWhite(r[0]) && !IsWhite(r[|r| - 1]))
    ensures Contains(s, r)
  {
    var d := DropLeading(s);
    DropLeadingIsSuffix(s);
    DropTrailingIsPrefix(d);
    var r := DropTrailing(d);
    SliceContains(s, |s| - |d|, r);
    r
  }

  lemma {:induction false} SliceContains(s: string, start: nat, r: string)
    requires start <= |s| && StartsWith(s[start..], r)
    ensures Contains(s, r)
  {
    assert s[start..][..|r|] == s[start..start + |r|];
    assert OccursAt(s, r, start);
  }

  lemma {:induction false} DropLeadingIsSuffix(s: string)
    decreases |s|
    ensures |DropLeading(s)| <= |s| && DropLeading(s) == s[|s| - |DropLeading(s)|..]
    ensures DropLeading(s) == [] || !IsWhite(DropLeading(s)[0])
  {
    if s != [] && IsWhite(s[0]) {
      DropLeadingIsSuffix(s[1..]);
    }
  }

  lemma {:induction false} DropTrailingIsPrefix(s: string)
    decreases |s|
    ensures |DropTrailing(s)| <= |s| && DropTrailing(s) == s[..|DropTrailing(s)|]
    ensures DropTrailing(s) == [] || (!IsWhite(DropTrailing(s)[|DropTrailing(s)| - 1]))
    ensures s == [] || !IsWhite(s[0]) ==> DropTrailing(s) == [] || !IsWhite(DropTrailing(s)[0])
  {
    if s != [] && IsWhite(s[|s| - 1]) {
      DropTrailingIsPrefix(s[..|s| - 1]);
      assert s[..|s| - 1][..|DropTrailing(s)|] == s[..|DropTrailing(s)|];
    }
  }

  /** ASCII `str.lower()`. */
  function Lower(s: string): (r: string)
    ensures |r| == |s|
    ensures forall k :: 0 <= k < |s| ==> r[k] == LowerChar(s[k])
  {
    if s == [] then [] else [LowerChar(s[0])] + Lower(s[1..])
  }

  function LowerChar(c: char): char
  {
    if 'A' <= c <= 'Z' then (c as int + 32) as char else c
  }

  // ---------------------------------------------------------------- integers

  function DigitChar(d: nat): char
    requires d < 10
  {
    "0123456789"[d]
  }

  /** `str(n)` for a natural number. */
  function NatToString(n: nat): (r: string)
    decreases n
    ensures |r| >= 1
    ensures forall k :: 0 <= k < |r| ==> IsDigit(r[k])
    ensures |r| > 1 ==> r[0] != '0'
  {
    if n < 10 then [DigitChar(n)] else NatToString(n / 10) + [DigitChar(n % 10)]
  }

  /** `str(i)` for an integer. */
  function IntToString(i: int): string
  {
    if i < 0 then "-" + NatToString(-i) else NatToString(i)
  }

  /** The value of a non-empty string of decimal digits. */
  function DigitsValue(s: string): nat
    requires forall k :: 0 <= k < |s| ==> IsDigit(s[k])
  {
    if s == [] then 0
    else
      assert IsDigit(s[|s| - 1]);
      DigitsValue(s[..|s| - 1]) * 10 + (s[|s| - 1] as int - '0' as int)
  }

  /** Reading back what `str(n)` wrote gives `n`. */
  lemma {:induction false} DigitsValueOfNatToString(n: nat)
    decreases n
    ensures DigitsValue(NatToString(n)) == n
  {
    if n < 10 {
      DigitCharValue(n);
    } else {
      DigitsValueOfNatToString(n / 10);
      var r := NatToString(n);
      assert r[..|r| - 1] == NatToString(n / 10);
      assert r[|r| - 1] == DigitChar(n % 10);
      DigitCharValue(n % 10);
    }
  }

  /** The digit written for `d` stands for `d`. */
  lemma DigitCharValue(d: nat)
    requires d < 10
    ensures DigitChar(d) as int - '0' as int == d
  {
  }

  predicate AllDigits(s: string) { forall k :: 0 <= k < |s| ==> IsDigit(s[k]) }

  /** Python 2 `int(s)` on a string: optional surrounding whitespace, an optional
      sign and at least one decimal digit; anything else is a `ValueError` (`None`). */
  function ParseInt(s: string): (r: Option<int>)
    ensures r.Some? ==> HasDigit(s)
  {
    var t := Strip(s);
    if t == [] then None
    else
      var sign := if t[0] == '-' then -1 else 1;
      var body := if t[0] == '-' || t[0] == '+' then t[1..] else t;
      if body != [] && AllDigits(body) then
        assert Contains(s, t);
        HasDigitOfContains(s, t, body);
        Some(sign * DigitsValue(body))
      else None
  }

  predicate HasDigit(s: string) { exists k :: 0 <= k < |s| && IsDigit(s[k]) }

  lemma {:induction false} HasDigitOfContains(s: string, t: string, body: string)
    requires Contains(s, t)
    requires body != [] && AllDigits(body)
    requires body == t || (t != [] && body == t[1..])
    ensures HasDigit(s)
  {
    var i :| 0 <= i <= |s| && OccursAt(s, t, i);
    var off := if body == t then 0 else 1;
    assert t[off] == body[0];
    assert off < |t|;
    assert s[i..i + |t|][off] == s[i + off];
  }

  /** `int(str(i))` is `i`. */
  lemma {:induction false} ParseIntOfIntToString(i: int)
    ensures ParseInt(IntToString(i)) == Some(i)
  {
    var s := IntToString(i);
    var n := if i < 0 then -i else i;
    DigitsValueOfNatToString(n);
    assert !IsWhite(s[0]) && !IsWhite(s[|s| - 1]);
    StripOfTrimmed(s);
    if i < 0 {
      assert s[1..] == NatToString(n);
    } else {
      assert s[0] != '-' && s[0] != '+';
    }
  }

  lemma {:induction false} StripOfTrimmed(s: string)
    requires s == [] || (!IsWhite(s[0]) && !IsWhite(s[|s| - 1]))
    ensures Strip(s) == s
  {
  }
}
