/** The string operations the tools' text reports are assembled from: repeated
    appends (`.=`), `implode`, `%d` of a count, and the reading back of each. */
module Text {

  /** The string built by appending each part in turn, as a report is built by `.=`. */
  function Concat(parts: seq<string>): string
  {
    if parts == [] then "" else Concat(parts[..|parts| - 1]) + parts[|parts| - 1]
  }

  lemma {:induction false} ConcatAppend(a: seq<string>, b: seq<string>)
    ensures Concat(a + b) == Concat(a) + Concat(b)
  {
    if b == [] {
      assert a + b == a;
    } else {
      var b' := b[..|b| - 1];
      assert (a + b)[..|a + b| - 1] == a + b';
      ConcatAppend(a, b');
    }
  }

  lemma AppendAssoc(a: string, b: string, c: string)
    ensures (a + b) + c == a + (b + c)
  {
  }

  /** Appending one more part, as one step of a `.=` loop does. */
  lemma ConcatSnoc(parts: seq<string>, i: nat)
    requires i < |parts|
    ensures Concat(parts[..i + 1]) == Concat(parts[..i]) + parts[i]
  {
    assert parts[..i + 1][..i] == parts[..i];
  }

  /** One step of a `.=` loop after a fixed prefix. */
  lemma ConcatStep(prefix: string, parts: seq<string>, i: nat)
    requires i < |parts|
    ensures prefix + Concat(parts[..i]) + parts[i] == prefix + Concat(parts[..i + 1])
  {
    ConcatSnoc(parts, i);
    AppendAssoc(prefix, Concat(parts[..i]), parts[i]);
  }

  /** Part k sits in the concatenation right after parts 0..k-1. */
  lemma {:induction false} ConcatAt(parts: seq<string>, k: nat)
    requires k < |parts|
    ensures Concat(parts) == Concat(parts[..k]) + parts[k] + Concat(parts[k + 1..])
  {
    var before, here, after := parts[..k], [parts[k]], parts[k + 1..];
    assert parts == before + here + after;
    ConcatAppend(before + here, after);
    ConcatAppend(before, here);
    assert here[..0] == [];
    assert Concat(here) == Concat([]) + parts[k];
  }

  /** PHP's `implode(sep, parts)`. */
  function Join(parts: seq<string>, sep: string): string
  {
    if |parts| == 0 then ""
    else if |parts| == 1 then parts[0]
    else Join(parts[..|parts| - 1], sep) + sep + parts[|parts| - 1]
  }

  lemma JoinSnoc(parts: seq<string>, last: string, sep: string)
    requires |parts| >= 1
    ensures Join(parts + [last], sep) == Join(parts, sep) + sep + last
  {
    assert (parts + [last])[..|parts|] == parts;
  }

  /** Joining a first part in front of at least one more puts one separator after it. */
  lemma {:induction false} JoinCons(first: string, rest: seq<string>, sep: string)
    requires |rest| >= 1
    ensures Join([first] + rest, sep) == first + sep + Join(rest, sep)
  {
    var all := [first] + rest;
    if |rest| == 1 {
      assert all[..1] == [first];
    } else {
      var init := rest[..|rest| - 1];
      JoinCons(first, init, sep);
      assert all[..|all| - 1] == [first] + init;
    }
  }

  predicate StartsWith(s: string, prefix: string)
  {
    |prefix| <= |s| && s[..|prefix|] == prefix
  }

  predicate EndsWith(s: string, suffix: string)
  {
    |suffix| <= |s| && s[|s| - |suffix|..] == suffix
  }

  lemma StartsWithAppend(prefix: string, rest: string)
    ensures StartsWith(prefix + rest, prefix)
  {
    assert (prefix + rest)[..|prefix|] == prefix;
  }

  lemma EndsWithAppend(rest: string, suffix: string)
    ensures EndsWith(rest + suffix, suffix)
  {
    assert (rest + suffix)[|rest + suffix| - |suffix|..] == suffix;
  }

  /** Splitting at every occurrence of `sep`: the lines of a text when `sep` is '\n'. */
  function SplitOn(s: string, sep: char): (lines: seq<string>)
    ensures |lines| >= 1
  {
    if s == [] then [""]
    else
      var init := SplitOn(s[..|s| - 1], sep);
      var c := s[|s| - 1];
      if c == sep then init + [""]
      else init[..|init| - 1] + [init[|init| - 1] + [c]]
  }

  lemma {:induction false} SplitOnPlain(s: string, p: string, sep: char)
    requires sep !in p
    ensures var lines := SplitOn(s, sep);
            SplitOn(s + p, sep) == lines[..|lines| - 1] + [lines[|lines| - 1] + p]
  {
    if p == [] {
      assert s + p == s;
      var lines := SplitOn(s, sep);
      assert lines[|lines| - 1] + p == lines[|lines| - 1];
      assert lines == lines[..|lines| - 1] + [lines[|lines| - 1]];
    } else {
      var p' := p[..|p| - 1];
      assert (s + p)[..|s + p| - 1] == s + p';
      SplitOnPlain(s, p', sep);
      var lines := SplitOn(s, sep);
      assert lines[|lines| - 1] + p' + [p[|p| - 1]] == lines[|lines| - 1] + p;
    }
  }

  /** Joining lines that do not contain the separator, then splitting, gives the lines back. */
  lemma {:induction false} SplitJoin(parts: seq<string>, sep: char)
    requires |parts| >= 1
    requires forall i :: 0 <= i < |parts| ==> sep !in parts[i]
    ensures SplitOn(Join(parts, [sep]), sep) == parts
  {
    if |parts| == 1 {
      SplitOnPlain([], parts[0], sep);
      assert [] + parts[0] == parts[0];
    } else {
      var init := parts[..|parts| - 1];
      var last := parts[|parts| - 1];
      SplitJoin(init, sep);
      var j := Join(init, [sep]);
      SplitOnPlain(j + [sep], last, sep);
      assert (j + [sep])[..|j + [sep]| - 1] == j;
      var lines := SplitOn(j + [sep], sep);
      assert lines == init + [""];
      assert lines[..|lines| - 1] == init;
      assert lines[|lines| - 1] + last == last;
      assert Join(parts, [sep]) == j + [sep] + last;
      assert parts == init + [last];
    }
  }

  predicate IsDigit(c: char)
  {
    '0' <= c <= '9'
  }

  function DigitChar(d: nat): (c: char)
    requires d < 10
    ensures IsDigit(c)
  {
    ('0' as int + d) as char
  }

  /** `%d` of a non-negative count: its decimal digits, most significant first. */
  function Dec(n: nat): (s: string)
    ensures |s| >= 1
    ensures forall i :: 0 <= i < |s| ==> IsDigit(s[i])
    ensures |s| > 1 ==> s[0] != '0'
  {
    if n < 10 then [DigitChar(n)] else Dec(n / 10) + [DigitChar(n % 10)]
  }

  /** The number a string of decimal digits denotes. */
  function DecValue(s: string): nat
    requires forall i :: 0 <= i < |s| ==> IsDigit(s[i])
  {
    if s == [] then 0
    else
      var c := s[|s| - 1];
      assert IsDigit(c);
      10 * DecValue(s[..|s| - 1]) + (c as int - '0' as int)
  }

  /** Reading a printed count back gives the count. */
  lemma {:induction false} DecRoundTrip(n: nat)
    ensures DecValue(Dec(n)) == n
  {
    if n >= 10 {
      DecRoundTrip(n / 10);
      var s := Dec(n);
      assert s[..|s| - 1] == Dec(n / 10);
    }
  }

  /** Two counts print the same only if they are equal. */
  lemma DecInjective(m: nat, n: nat)
    requires Dec(m) == Dec(n)
    ensures m == n
  {
    DecRoundTrip(m);
    DecRoundTrip(n);
  }
}
