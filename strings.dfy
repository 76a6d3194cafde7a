/** The parts of Go's `strings` and `strconv` packages the handlers rely on:
    prefix trimming, splitting on a separator, joining without a separator
    and decimal formatting of unsigned integers. */
module Strings {
  import opened Common

  /** `strings.TrimPrefix`: removes one leading occurrence of `prefix`, if any. */
  function TrimPrefix(s: String, prefix: String): (r: String)
    ensures prefix <= s ==> prefix + r == s
    ensures !(prefix <= s) ==> r == s
  {
    if prefix <= s then s[|prefix|..] else s
  }

  /** Only one copy of the prefix is removed. */
  lemma TrimPrefixRemovesOnce(prefix: String, rest: String)
    ensures TrimPrefix(prefix + rest, prefix) == rest
    ensures TrimPrefix(prefix + prefix + rest, prefix) == prefix + rest
  {
    assert prefix <= prefix + rest;
    assert prefix <= prefix + prefix + rest;
    assert (prefix + prefix + rest)[|prefix|..] == prefix + rest;
  }

  /** `strings.Join(parts, string(sep))` for a non-empty list of parts. */
  function JoinWith(parts: seq<String>, sep: char): String
    requires |parts| >= 1
  {
    if |parts| == 1 then parts[0] else parts[0] + [sep] + JoinWith(parts[1..], sep)
  }

  /** Joining four parts puts one separator between neighbours. */
  lemma JoinWithFour(a: String, b: String, c: String, d: String, sep: char)
    ensures JoinWith([a, b, c, d], sep) == a + [sep] + b + [sep] + c + [sep] + d
  {
    var ps := [a, b, c, d];
    assert ps[1..] == [b, c, d] && ps[1..][1..] == [c, d] && ps[1..][1..][1..] == [d];
    assert JoinWith([c, d], sep) == c + [sep] + d;
    assert JoinWith([b, c, d], sep) == b + [sep] + (c + [sep] + d);
  }

  /** Number of occurrences of `c` in `s`. */
  function Count(s: String, c: char): nat
  {
    if s == [] then 0 else (if s[0] == c then 1 else 0) + Count(s[1..], c)
  }

  /** Joining a first part extended by one character. */
  lemma JoinWithConsChar(ch: char, parts: seq<String>, sep: char)
    requires |parts| >= 1
    ensures JoinWith([[ch] + parts[0]] + parts[1..], sep) == [ch] + JoinWith(parts, sep)
  {
    var ps := [[ch] + parts[0]] + parts[1..];
    if |parts| > 1 {
      assert ps[1..] == parts[1..];
    }
  }

  /** `strings.Split(s, string(sep))`: the pieces between separators, in order.
      The result is never empty, no piece holds the separator, joining the
      pieces back gives `s`, and there is one more piece than separators. */
  function Split(s: String, sep: char): (parts: seq<String>)
    ensures |parts| == Count(s, sep) + 1
    ensures forall i :: 0 <= i < |parts| ==> sep !in parts[i]
    ensures JoinWith(parts, sep) == s
    decreases |s|
  {
    if s == [] then [[]]
    else
      var rest := Split(s[1..], sep);
      if s[0] == sep then
        assert [sep] + s[1..] == s;
        [[]] + rest
      else
        JoinWithConsChar(s[0], rest, sep);
        assert [s[0]] + s[1..] == s;
        [[s[0]] + rest[0]] + rest[1..]
  }

  /** Splitting undoes joining whenever no part holds the separator. */
  lemma {:induction false} SplitJoin(parts: seq<String>, sep: char)
    requires |parts| >= 1
    requires forall i :: 0 <= i < |parts| ==> sep !in parts[i]
    ensures Split(JoinWith(parts, sep), sep) == parts
    decreases |JoinWith(parts, sep)|
  {
    if |parts[0]| > 0 {
      var p0 := parts[0];
      var shorter := [p0[1..]] + parts[1..];
      assert forall i :: 0 <= i < |shorter| ==> sep !in shorter[i] by {
        forall i | 0 <= i < |shorter| ensures sep !in shorter[i] {
          if i == 0 {
            assert forall c :: c in p0[1..] ==> c in p0;
          } else {
            assert shorter[i] == parts[i];
          }
        }
      }
      SplitJoin(shorter, sep);
      JoinWithConsChar(p0[0], shorter, sep);
      assert [p0[0]] + p0[1..] == p0;
      assert [[p0[0]] + shorter[0]] + shorter[1..] == parts;
      var s := JoinWith(parts, sep);
      assert s == [p0[0]] + JoinWith(shorter, sep);
      assert s[0] == p0[0] && s[0] != sep;
      assert s[1..] == JoinWith(shorter, sep);
    } else if |parts| > 1 {
      var s := JoinWith(parts, sep);
      assert s == [sep] + JoinWith(parts[1..], sep);
      assert s[1..] == JoinWith(parts[1..], sep);
      SplitJoin(parts[1..], sep);
      assert [[]] + parts[1..] == parts;
    }
  }

  /** `strings.Join(parts, "")`: concatenation without any separator. */
  function Concat(parts: seq<String>): String
  {
    if parts == [] then [] else parts[0] + Concat(parts[1..])
  }

  predicate IsDigit(c: char)
  {
    '0' <= c <= '9'
  }

  function DigitChar(d: nat): (c: char)
    requires d < 10
    ensures IsDigit(c) && DigitValue(c) == d
  {
    (48 + d) as char
  }

  function DigitValue(c: char): nat
    requires IsDigit(c)
  {
    (c as int - 48) as nat
  }

  /** `strconv.FormatUint(n, 10)`: plain decimal digits, no sign, and no
      leading zero except in "0" itself. */
  function FormatUint(n: nat): (r: String)
    ensures |r| >= 1
    ensures forall i :: 0 <= i < |r| ==> IsDigit(r[i])
    ensures |r| > 1 ==> r[0] != '0'
    decreases n
  {
    if n < 10 then [DigitChar(n)] else FormatUint(n / 10) + [DigitChar(n % 10)]
  }

  /** Decimal reading of a non-empty digit string: the inverse used by the
      gateway when it reads a price back from a form. */
  function ParseUint(s: String): Option<nat>
    decreases |s|
  {
    if s == [] || !IsDigit(s[|s| - 1]) then None
    else if |s| == 1 then Some(DigitValue(s[0]))
    else
      match ParseUint(s[..|s| - 1])
      case None => None
      case Some(v) => Some(v * 10 + DigitValue(s[|s| - 1]))
  }

  /** Reading back a formatted number gives the number. */
  lemma {:induction false} ParseFormatUint(n: nat)
    ensures ParseUint(FormatUint(n)) == Some(n)
    decreases n
  {
    if n >= 10 {
      var r := FormatUint(n);
      assert r[..|r| - 1] == FormatUint(n / 10);
      ParseFormatUint(n / 10);
    }
  }

  /** Distinct numbers format to distinct strings. */
  lemma FormatUintInjective(a: nat, b: nat)
    ensures FormatUint(a) == FormatUint(b) ==> a == b
  {
    ParseFormatUint(a);
    ParseFormatUint(b);
  }
}
