/** String helpers with the JavaScript semantics the exporter and its
    configuration rely on: `split` with a one-character separator, the
    matching join, suffix tests and decimal rendering of a port number. */
module Strings {

  /** Number of occurrences of `c` in `s`. */
  function Count(s: string, c: char): nat
    decreases |s|
  {
    if |s| == 0 then 0 else (if s[0] == c then 1 else 0) + Count(s[1..], c)
  }

  /** A character occurs at least once exactly when it is in the string. */
  lemma {:induction false} CountPositive(s: string, c: char)
    ensures Count(s, c) > 0 <==> c in s
    decreases |s|
  {
    if |s| > 0 {
      CountPositive(s[1..], c);
      assert c in s <==> s[0] == c || c in s[1..];
    }
  }

  predicate NoSpace(s: string)
  {
    ' ' !in s
  }

  /** `s.split(sep)` for a one-character separator: the runs of `s` between
      separators, empty runs included, so there is always one more part
      than there are separators. */
  function Split(s: string, sep: char): (parts: seq<string>)
    ensures |parts| == Count(s, sep) + 1
    ensures forall i :: 0 <= i < |parts| ==> sep !in parts[i]
    decreases |s|
  {
    if |s| == 0 then [""]
    else
      var rest := Split(s[1..], sep);
      if s[0] == sep then [""] + rest
      else [[s[0]] + rest[0]] + rest[1..]
  }

  /** `parts.join(sep)`. */
  function Join(parts: seq<string>, sep: char): string
    decreases |parts|
  {
    if |parts| == 0 then ""
    else if |parts| == 1 then parts[0]
    else parts[0] + [sep] + Join(parts[1..], sep)
  }

  /** Joining the parts of a split with the same separator restores the input. */
  lemma {:induction false} SplitThenJoin(s: string, sep: char)
    ensures Join(Split(s, sep), sep) == s
    decreases |s|
  {
    if |s| > 0 {
      var rest := Split(s[1..], sep);
      SplitThenJoin(s[1..], sep);
      if s[0] == sep {
        assert Split(s, sep) == [""] + rest;
        assert ([""] + rest)[1..] == rest;
      } else {
        var parts := Split(s, sep);
        assert parts == [[s[0]] + rest[0]] + rest[1..];
        if |rest| == 1 {
          assert parts == [[s[0]] + rest[0]];
        } else {
          assert parts[1..] == rest[1..];
          assert Join(rest, sep) == rest[0] + [sep] + Join(rest[1..], sep);
        }
        assert s == [s[0]] + s[1..];
      }
    }
  }

  /** A string without the separator splits into itself alone. */
  lemma {:induction false} SplitWithoutSeparator(s: string, sep: char)
    requires sep !in s
    ensures Split(s, sep) == [s]
    decreases |s|
  {
    if |s| > 0 {
      assert s[0] != sep;
      assert sep !in s[1..];
      SplitWithoutSeparator(s[1..], sep);
      assert s == [s[0]] + s[1..];
    }
  }

  /** A separator-free prefix glues onto the first part of the rest. */
  lemma {:induction false} SplitAfterPrefix(a: string, rest: string, sep: char)
    requires sep !in a
    ensures Split(a + rest, sep) == [a + Split(rest, sep)[0]] + Split(rest, sep)[1..]
    decreases |a|
  {
    if |a| > 0 {
      assert (a + rest)[0] == a[0] && a[0] != sep;
      assert (a + rest)[1..] == a[1..] + rest;
      SplitAfterPrefix(a[1..], rest, sep);
      assert [a[0]] + (a[1..] + Split(rest, sep)[0]) == a + Split(rest, sep)[0];
    } else {
      var parts := Split(rest, sep);
      assert a + rest == rest && a + parts[0] == parts[0];
      assert parts == [parts[0]] + parts[1..];
    }
  }

  /** The round trip that lets a two-part key be taken apart again:
      `(a + sep + b).split(sep)` is `[a, b]` when neither part holds `sep`. */
  lemma SplitPair(a: string, b: string, sep: char)
    requires sep !in a && sep !in b
    ensures Split(a + [sep] + b, sep) == [a, b]
  {
    SplitWithoutSeparator(b, sep);
    var tail := [sep] + b;
    assert tail[1..] == b;
    assert Split(tail, sep) == [""] + [b];
    assert a + [sep] + b == a + tail;
    SplitAfterPrefix(a, tail, sep);
    assert a + "" == a;
  }

  /** Two separator-free leading fields come off a split whole, whatever
      follows the second separator: the rest is split on its own. */
  lemma SplitTwoFields(a: string, b: string, rest: string, sep: char)
    requires sep !in a && sep !in b
    ensures Split(a + [sep] + b + [sep] + rest, sep) == [a, b] + Split(rest, sep)
  {
    var tail2 := [sep] + rest;
    assert tail2[0] == sep && tail2[1..] == rest;
    assert Split(tail2, sep) == [""] + Split(rest, sep);
    SplitAfterPrefix(b, tail2, sep);
    assert b + "" == b;
    var tail1 := [sep] + (b + tail2);
    assert tail1[0] == sep && tail1[1..] == b + tail2;
    assert Split(tail1, sep) == [""] + ([b] + Split(rest, sep));
    SplitAfterPrefix(a, tail1, sep);
    assert a + "" == a;
    assert a + [sep] + b + [sep] + rest == a + tail1;
  }

  /** The suffix test performed by an anchored regular expression such as
      `/#ephemeral$/`: in JavaScript `$` without the `m` flag matches only at
      the very end of the input. */
  predicate EndsWith(s: string, suffix: string)
  {
    |suffix| <= |s| && s[|s| - |suffix|..] == suffix
  }

  /** `EndsWith` holds exactly of the strings that are some prefix followed by
      the suffix. */
  lemma EndsWithIsAppend(s: string, suffix: string)
    ensures EndsWith(s, suffix) <==> exists p: string :: s == p + suffix
  {
    if EndsWith(s, suffix) {
      var p := s[..|s| - |suffix|];
      assert s == p + suffix;
    }
    if exists p: string :: s == p + suffix {
      var p: string :| s == p + suffix;
      assert s[|p|..] == suffix;
    }
  }

  /** The character of one decimal digit. */
  function DigitChar(d: nat): (c: char)
    requires d < 10
    ensures '0' <= c <= '9'
    ensures DigitValue(c) == d
  {
    (d + '0' as int) as char
  }

  /** The value of one decimal digit character. */
  function DigitValue(c: char): int
  {
    c as int - '0' as int
  }

  /** The number a string of decimal digits denotes, most significant first. */
  function DecimalValue(s: string): int
    decreases |s|
  {
    if |s| == 0 then 0 else DecimalValue(s[..|s| - 1]) * 10 + DigitValue(s[|s| - 1])
  }

  /** Decimal rendering of a natural number, as template-literal
      interpolation renders an integral port number: a non-empty string of
      digits that denotes the number. */
  function Decimal(n: nat): (d: string)
    ensures |d| >= 1
    ensures forall i :: 0 <= i < |d| ==> '0' <= d[i] <= '9'
    ensures DecimalValue(d) == n
    ensures |d| == 1 || d[0] != '0'
    decreases n
  {
    if n < 10 then [DigitChar(n)]
    else
      var prefix := Decimal(n / 10);
      var d := prefix + [DigitChar(n % 10)];
      assert d[..|d| - 1] == prefix;
      d
  }

  /** A decimal rendering holds no colon. */
  lemma DecimalHasNoColon(n: nat)
    ensures ':' !in Decimal(n)
  {
    var d := Decimal(n);
    forall i | 0 <= i < |d| ensures d[i] != ':' {
      assert '0' <= d[i] <= '9';
    }
  }

  /** Different numbers render differently. */
  lemma DecimalInjective(m: nat, n: nat)
    requires Decimal(m) == Decimal(n)
    ensures m == n
  {
  }

  /** Splitting at the last separator: two strings that are each some prefix,
      the separator and a separator-free tail agree on prefix and tail. */
  lemma SplitAtLastSeparator(a1: string, d1: string, a2: string, d2: string, sep: char)
    requires sep !in d1 && sep !in d2
    requires a1 + [sep] + d1 == a2 + [sep] + d2
    ensures a1 == a2 && d1 == d2
  {
    var x := a1 + [sep] + d1;
    assert x[|a1|] == sep && x[|a2|] == sep;
    assert forall k :: 0 <= k < |d1| ==> x[|a1| + 1 + k] == d1[k];
    assert forall k :: 0 <= k < |d2| ==> x[|a2| + 1 + k] == d2[k];
    assert a1 == x[..|a1|] == a2;
    assert d1 == x[|a1| + 1..] == d2;
  }
}
