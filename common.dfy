/** Small shared vocabulary: an optional value. */
module Common {
  datatype Option<T> = None | Some(value: T)
}

/**
  The pieces of Python's `str` that the modelled code relies on: whitespace
  classification and `strip`, `sep.join`, `split(sep)`, slicing with `[:n]`,
  substring search, ASCII `lower`, and decimal rendering of integers.
  Strings are sequences of Unicode scalar values, as Python's `str` is.
*/
module Strings {
  import opened Common

  /** Characters for which Python's `str.isspace()` holds; regex `\s` on str
      patterns matches the same set. */
  predicate IsSpace(c: char) {
    ('\U{9}' <= c <= '\U{D}') || ('\U{1C}' <= c <= '\U{20}') || c == '\U{85}' || c == '\U{A0}'
    || c == '\U{1680}' || ('\U{2000}' <= c <= '\U{200A}') || c == '\U{2028}' || c == '\U{2029}'
    || c == '\U{202F}' || c == '\U{205F}' || c == '\U{3000}'
  }

  predicate AllSpace(s: string) {
    forall i | 0 <= i < |s| :: IsSpace(s[i])
  }

  /** A string that `strip()` leaves unchanged. */
  predicate IsStripped(s: string) {
    s == [] || (!IsSpace(s[0]) && !IsSpace(s[|s| - 1]))
  }

  function LStrip(s: string): (r: string)
    ensures |r| <= |s|
    ensures r == [] || !IsSpace(r[0])
  {
    if s != [] && IsSpace(s[0]) then LStrip(s[1..]) else s
  }

  function RStrip(s: string): (r: string)
    ensures |r| <= |s|
    ensures r == [] || (!IsSpace(r[|r| - 1]) && r[0] == s[0])
  {
    if s != [] && IsSpace(s[|s| - 1]) then RStrip(s[..|s| - 1]) else s
  }

  /** Python's `s.strip()`: drop leading and trailing whitespace. */
  function Strip(s: string): (r: string)
    ensures IsStripped(r)
    ensures |r| <= |s|
  {
    RStrip(LStrip(s))
  }

  /** `lstrip()` removes a whitespace prefix. */
  lemma {:induction false} LStripSpec(s: string)
    ensures LStrip(s) == s[|s| - |LStrip(s)|..]
    ensures AllSpace(s[..|s| - |LStrip(s)|])
    ensures AllSpace(s) ==> LStrip(s) == []
  {
    if s != [] && IsSpace(s[0]) {
      LStripSpec(s[1..]);
      assert AllSpace(s) ==> AllSpace(s[1..]);
      var k := |s| - |LStrip(s)|;
      assert s[..k] == [s[0]] + s[1..][..k - 1];
      AllSpaceConcat([s[0]], s[1..][..k - 1]);
    }
  }

  /** `rstrip()` removes a whitespace suffix. */
  lemma {:induction false} RStripSpec(s: string)
    ensures RStrip(s) == s[..|RStrip(s)|]
    ensures AllSpace(s[|RStrip(s)|..])
  {
    if s != [] && IsSpace(s[|s| - 1]) {
      var t := s[..|s| - 1];
      RStripSpec(t);
      var k := |RStrip(s)|;
      assert s[k..] == t[k..] + [s[|s| - 1]];
      AllSpaceConcat(t[k..], [s[|s| - 1]]);
    }
  }

  /** `strip()` gives the empty string exactly for whitespace-only text. */
  lemma StripEmpty(s: string)
    ensures Strip(s) == [] <==> AllSpace(s)
  {
    var l := LStrip(s);
    LStripSpec(s);
    RStripSpec(l);
    AllSpaceConcat(s[..|s| - |l|], l);
    assert s == s[..|s| - |l|] + l;
  }

  lemma StripOfStripped(s: string)
    requires IsStripped(s)
    ensures Strip(s) == s
  {
  }

  /** A leading space never survives `strip()`. */
  lemma StripLeadingSpace(s: string)
    ensures Strip(" " + s) == Strip(s)
  {
    assert (" " + s)[1..] == s;
  }

  /** `sep.join(parts)`; the last element is appended last, as a loop that
      grows a running string does. */
  function Join(parts: seq<string>, sep: string): string
  {
    if |parts| == 0 then ""
    else if |parts| == 1 then parts[0]
    else Join(parts[..|parts| - 1], sep) + sep + parts[|parts| - 1]
  }

  lemma {:induction false} JoinCons(p: string, rest: seq<string>, sep: string)
    requires rest != []
    ensures Join([p] + rest, sep) == p + sep + Join(rest, sep)
    decreases |rest|
  {
    var all := [p] + rest;
    if |rest| == 1 {
      assert all[..1] == [p];
    } else {
      assert all[..|all| - 1] == [p] + rest[..|rest| - 1];
      JoinCons(p, rest[..|rest| - 1], sep);
    }
  }

  lemma {:induction false} JoinAppend(parts: seq<string>, q: seq<string>, sep: string)
    requires parts != [] && q != []
    ensures Join(parts + q, sep) == Join(parts, sep) + sep + Join(q, sep)
    decreases |q|
  {
    var all := parts + q;
    if |q| == 1 {
      assert all[..|all| - 1] == parts;
    } else {
      assert all[..|all| - 1] == parts + q[..|q| - 1];
      JoinAppend(parts, q[..|q| - 1], sep);
    }
  }

  lemma {:induction false} JoinLength(parts: seq<string>, sep: string)
    requires parts != []
    ensures |Join(parts, sep)| >= |parts[0]|
    ensures |parts| >= 2 ==> |Join(parts, sep)| >= |parts[0]| + |sep|
    decreases |parts|
  {
    if |parts| >= 2 {
      JoinLength(parts[..|parts| - 1], sep);
    }
  }

  /** `pat` occurs in `s` starting at position `k`. */
  predicate OccursAt(s: string, pat: string, k: int) {
    0 <= k && k + |pat| <= |s| && s[k..k + |pat|] == pat
  }

  lemma OccursAtTail(s: string, pat: string, k: int)
    requires s != [] && k >= 1
    ensures OccursAt(s, pat, k) <==> OccursAt(s[1..], pat, k - 1)
  {
    if k + |pat| <= |s| {
      var a, b := s[k..k + |pat|], s[1..][k - 1..k - 1 + |pat|];
      forall j | 0 <= j < |pat| ensures a[j] == b[j] {
        assert a[j] == s[k + j] && b[j] == s[1..][k - 1 + j];
      }
      assert a == b;
    }
  }

  /** Position of the first occurrence of `pat` in `s`. */
  function IndexOf(s: string, pat: string): (r: Option<nat>)
    requires pat != []
    ensures r.Some? ==> OccursAt(s, pat, r.value)
    ensures r.Some? ==> forall k | 0 <= k < r.value :: !OccursAt(s, pat, k)
    ensures r.None? ==> forall k :: !OccursAt(s, pat, k)
    decreases |s|
  {
    if |s| < |pat| then None
    else if s[..|pat|] == pat then Some(0)
    else
      var t := IndexOf(s[1..], pat);
      assert forall k | k >= 1 :: OccursAt(s, pat, k) == OccursAt(s[1..], pat, k - 1) by {
        forall k | k >= 1 ensures OccursAt(s, pat, k) == OccursAt(s[1..], pat, k - 1) {
          OccursAtTail(s, pat, k);
        }
      }
      match t
      case None => None
      case Some(i) => Some(i + 1)
  }

  /** Python's `s.split(sep)` for a non-empty separator. */
  function Split(s: string, sep: string): (parts: seq<string>)
    requires sep != []
    ensures |parts| >= 1
    decreases |s|
  {
    match IndexOf(s, sep)
    case None => [s]
    case Some(i) => [s[..i]] + Split(s[i + |sep|..], sep)
  }

  /** Splitting and re-joining with the same separator gives back the text. */
  lemma {:induction false} SplitJoin(s: string, sep: string)
    requires sep != []
    ensures Join(Split(s, sep), sep) == s
    decreases |s|
  {
    match IndexOf(s, sep)
    case None =>
    case Some(i) =>
      var rest := s[i + |sep|..];
      SplitJoin(rest, sep);
      RejoinAt(s, sep, i, Split(rest, sep));
  }

  /** Re-joining the text before an occurrence of `sep` with pieces that
      join to the text after it gives back the whole text. */
  lemma RejoinAt(s: string, sep: string, i: nat, parts: seq<string>)
    requires OccursAt(s, sep, i)
    requires parts != [] && Join(parts, sep) == s[i + |sep|..]
    ensures Join([s[..i]] + parts, sep) == s
  {
    var before, after := s[..i], s[i + |sep|..];
    assert s[i..] == sep + after by {
      assert s[i..] == s[i..i + |sep|] + s[i + |sep|..];
    }
    assert s == before + s[i..];
    JoinCons(before, parts, sep);
  }

  /** Every piece of a whitespace-only text is whitespace-only. */
  lemma {:induction false} SplitAllSpace(s: string, sep: string)
    requires sep != [] && AllSpace(s)
    ensures forall p | p in Split(s, sep) :: AllSpace(p)
    decreases |s|
  {
    match IndexOf(s, sep)
    case None =>
    case Some(i) =>
      SplitAllSpace(s[i + |sep|..], sep);
  }

  lemma AllSpaceConcat(a: string, b: string)
    ensures AllSpace(a + b) <==> AllSpace(a) && AllSpace(b)
  {
    assert forall i | 0 <= i < |a| :: a[i] == (a + b)[i];
    assert forall i | 0 <= i < |b| :: b[i] == (a + b)[|a| + i];
    if AllSpace(a) && AllSpace(b) {
      forall i | 0 <= i < |a + b| ensures IsSpace((a + b)[i]) {
        if i >= |a| { assert (a + b)[i] == b[i - |a|]; }
      }
    }
  }

  /** A join of whitespace-only pieces with a whitespace separator is whitespace-only. */
  lemma {:induction false} JoinAllSpace(parts: seq<string>, sep: string)
    requires AllSpace(sep)
    requires forall p | p in parts :: AllSpace(p)
    ensures AllSpace(Join(parts, sep))
    decreases |parts|
  {
    if |parts| >= 2 {
      JoinAllSpace(parts[..|parts| - 1], sep);
      AllSpaceConcat(Join(parts[..|parts| - 1], sep), sep);
      AllSpaceConcat(Join(parts[..|parts| - 1], sep) + sep, parts[|parts| - 1]);
    }
  }

  /** Python's `s[:n]` for `n >= 0`. */
  function Prefix(s: string, n: nat): (r: string)
    ensures |r| == if |s| <= n then |s| else n
    ensures r == s[..|r|]
  {
    if |s| <= n then s else s[..n]
  }

  /** `pat in s` for strings. */
  predicate Contains(s: string, pat: string) {
    exists k | 0 <= k <= |s| :: OccursAt(s, pat, k)
  }

  /** A piece of a concatenation occurs in it. */
  lemma ContainsMiddle(a: string, b: string, c: string)
    ensures Contains(a + b + c, b)
  {
    assert (a + b + c)[|a|..|a| + |b|] == b;
    assert OccursAt(a + b + c, b, |a|);
  }

  /** A string occurs at the front of any extension of it. */
  lemma ContainsFront(a: string, b: string)
    ensures Contains(a + b, a)
  {
    assert (a + b)[..|a|] == a;
    assert OccursAt(a + b, a, 0);
  }

  /** An occurrence survives appending text after it. */
  lemma ContainsAppend(a: string, b: string, pat: string)
    requires Contains(a, pat)
    ensures Contains(a + b, pat)
  {
    var k :| 0 <= k <= |a| && OccursAt(a, pat, k);
    assert (a + b)[k..k + |pat|] == a[k..k + |pat|];
    assert OccursAt(a + b, pat, k);
  }

  /** A substring of a substring is a substring. */
  lemma ContainsTransitive(a: string, b: string, c: string)
    requires Contains(a, b) && Contains(b, c)
    ensures Contains(a, c)
  {
    var k :| 0 <= k <= |a| && OccursAt(a, b, k);
    var l :| 0 <= l <= |b| && OccursAt(b, c, l);
    assert a[k..k + |b|][l..l + |c|] == c;
    var inner, outer := a[k + l..k + l + |c|], a[k..k + |b|][l..l + |c|];
    forall i | 0 <= i < |c|
      ensures inner[i] == outer[i]
    {
    }
    assert inner == outer;
    assert OccursAt(a, c, k + l);
  }

  function LowerChar(c: char): char {
    if 'A' <= c <= 'Z' then (c as int + 32) as char else c
  }

  /** `lower()` on ASCII letters; other characters are kept. */
  function Lower(s: string): (r: string)
    ensures |r| == |s|
  {
    seq(|s|, i requires 0 <= i < |s| => LowerChar(s[i]))
  }

  function DigitChar(d: nat): char
    requires d < 10
  {
    "0123456789"[d]
  }

  /** `str(n)` for a natural number. */
  function NatToString(n: nat): (r: string)
    ensures r != []
    ensures forall i | 0 <= i < |r| :: '0' <= r[i] <= '9'
  {
    if n < 10 then [DigitChar(n)] else NatToString(n / 10) + [DigitChar(n % 10)]
  }

  function DigitValue(c: char): nat {
    if '0' <= c <= '9' then c as int - '0' as int else 0
  }

  /** Reading decimal digits back as a number. */
  function ParseNat(s: string): nat {
    if s == [] then 0 else ParseNat(s[..|s| - 1]) * 10 + DigitValue(s[|s| - 1])
  }

  lemma {:induction false} ParseNatToString(n: nat)
    ensures ParseNat(NatToString(n)) == n
  {
    if n >= 10 {
      var r := NatToString(n);
      assert r[..|r| - 1] == NatToString(n / 10);
      ParseNatToString(n / 10);
    }
  }

  /** Python's `a < b` on strings: code point by code point, a proper
      prefix first. */
  predicate StrLess(a: string, b: string)
    decreases |a|
  {
    b != [] && (a == [] || a[0] < b[0] || (a[0] == b[0] && StrLess(a[1..], b[1..])))
  }

  lemma {:induction false} StrLessIrreflexive(a: string)
    ensures !StrLess(a, a)
    decreases |a|
  {
    if a != [] {
      StrLessIrreflexive(a[1..]);
    }
  }

  lemma {:induction false} StrLessTotal(a: string, b: string)
    ensures a == b || StrLess(a, b) || StrLess(b, a)
    decreases |a|
  {
    if a != [] && b != [] && a[0] == b[0] {
      StrLessTotal(a[1..], b[1..]);
      if a[1..] == b[1..] {
        assert a == [a[0]] + a[1..] && b == [b[0]] + b[1..];
      }
    }
  }

  lemma {:induction false} StrLessTransitive(a: string, b: string, c: string)
    requires StrLess(a, b) && StrLess(b, c)
    ensures StrLess(a, c)
    decreases |a|
  {
    if a != [] && a[0] == b[0] && b[0] == c[0] {
      StrLessTransitive(a[1..], b[1..], c[1..]);
    }
  }

  /** `str(i)` for an integer. */
  function IntToString(i: int): (r: string)
    ensures r != []
  {
    if i < 0 then "-" + NatToString(-i) else NatToString(i)
  }
}

/**
  The values stored in the system's metadata dictionaries, with Python's
  truthiness and `str()` of them.
*/
module PyValues {
  import opened Common
  import opened Strings

  datatype Value = Str(s: string) | Int(i: int) | Bool(b: bool)

  /** A metadata dictionary (`Dict[str, Any]` restricted to the value kinds used). */
  type Dict = map<string, Value>

  /** Python's `bool(v)`. */
  predicate Truthy(v: Value) {
    match v
    case Str(s) => s != []
    case Int(i) => i != 0
    case Bool(b) => b
  }

  /** `d.get(key, default)`. */
  function Get(d: Dict, key: string, default: Value): (v: Value)
    ensures key in d ==> v == d[key]
    ensures key !in d ==> v == default
  {
    if key in d then d[key] else default
  }

  /** `str(v)`. */
  function Show(v: Value): string {
    match v
    case Str(s) => s
    case Int(i) => IntToString(i)
    case Bool(b) => if b then "True" else "False"
  }

  /** The numeric value of an `int` or a `bool` (`True == 1`). */
  function NumberOf(v: Value): int
    requires !v.Str?
  {
    match v
    case Int(i) => i
    case Bool(b) => if b then 1 else 0
  }

  /** Python's `<` where it is defined: numbers by value, strings by
      code point. Python raises `TypeError` between a string and a number
      and treats `True` and `1` as equal; here numbers come first and a
      `bool` comes before the equal `int`, which makes the order total. */
  predicate ValueLess(a: Value, b: Value) {
    match (a, b)
    case (Str(x), Str(y)) => StrLess(x, y)
    case (Str(_), _) => false
    case (_, Str(_)) => true
    case _ => NumberOf(a) < NumberOf(b) || (NumberOf(a) == NumberOf(b) && a.Bool? && b.Int?)
  }

  lemma ValueLessIrreflexive(a: Value)
    ensures !ValueLess(a, a)
  {
    if a.Str? {
      StrLessIrreflexive(a.s);
    }
  }

  lemma ValueLessTotal(a: Value, b: Value)
    ensures a == b || ValueLess(a, b) || ValueLess(b, a)
  {
    if a.Str? && b.Str? {
      StrLessTotal(a.s, b.s);
    }
  }

  lemma ValueLessTransitive(a: Value, b: Value, c: Value)
    requires ValueLess(a, b) && ValueLess(b, c)
    ensures ValueLess(a, c)
  {
    if a.Str? && b.Str? && c.Str? {
      StrLessTransitive(a.s, b.s, c.s);
    }
  }

  /** Python's `<` on tuples of equal length: the first differing position decides. */
  predicate LexLess(a: seq<Value>, b: seq<Value>)
    decreases |a|
  {
    a != [] && b != [] && (ValueLess(a[0], b[0]) || (a[0] == b[0] && LexLess(a[1..], b[1..])))
  }

  lemma {:induction false} LexLessIrreflexive(a: seq<Value>)
    ensures !LexLess(a, a)
    decreases |a|
  {
    if a != [] {
      ValueLessIrreflexive(a[0]);
      LexLessIrreflexive(a[1..]);
    }
  }

  lemma {:induction false} LexLessTotal(a: seq<Value>, b: seq<Value>)
    requires |a| == |b|
    ensures a == b || LexLess(a, b) || LexLess(b, a)
    decreases |a|
  {
    if a != [] {
      ValueLessTotal(a[0], b[0]);
      if a[0] == b[0] {
        LexLessTotal(a[1..], b[1..]);
        if a[1..] == b[1..] {
          assert a == [a[0]] + a[1..] && b == [b[0]] + b[1..];
        }
      }
    }
  }

  lemma {:induction false} LexLessTransitive(a: seq<Value>, b: seq<Value>, c: seq<Value>)
    requires LexLess(a, b) && LexLess(b, c)
    ensures LexLess(a, c)
    decreases |a|
  {
    if ValueLess(a[0], b[0]) && ValueLess(b[0], c[0]) {
      ValueLessTransitive(a[0], b[0], c[0]);
    } else if a[0] == b[0] && b[0] == c[0] {
      LexLessTransitive(a[1..], b[1..], c[1..]);
    }
  }

  /** A chunk record `{"content": ..., "metadata": ...}`; `None` stands for
      a missing key. */
  datatype Chunk = Chunk(content: Option<string>, metadata: Option<Dict>)
}
