/** The string operations the service layer and the tutorial use:
    `toLowerCase` (ASCII letters only), `includes`, `join` and the decimal
    rendering of a number inside a template literal. */
module Text {

  /** Lower-cases one ASCII capital letter; every other character is kept. */
  function LowerChar(c: char): (r: char)
    ensures 'A' <= c <= 'Z' ==> 'a' <= r <= 'z' && r as int == c as int + 32
    ensures !('A' <= c <= 'Z') ==> r == c
  {
    if 'A' <= c <= 'Z' then (c as int - 'A' as int + 'a' as int) as char else c
  }

  /** `s.toLowerCase()`, restricted to the ASCII capitals. */
  function ToLower(s: string): (r: string)
    ensures |r| == |s|
    ensures forall i :: 0 <= i < |s| ==> r[i] == LowerChar(s[i])
  {
    seq(|s|, i requires 0 <= i < |s| => LowerChar(s[i]))
  }

  /** Lower-casing an already lower-cased string changes nothing. */
  lemma ToLowerIdempotent(s: string)
    ensures ToLower(ToLower(s)) == ToLower(s)
  {
    var once := ToLower(s);
    assert forall i :: 0 <= i < |once| ==> !('A' <= once[i] <= 'Z');
  }

  /** True when `sub` occurs in `s` at position `i`. */
  predicate OccursAt(s: string, sub: string, i: int)
  {
    0 <= i && i + |sub| <= |s| && s[i..i + |sub|] == sub
  }

  /** `s.includes(sub)`, searching positions `from`, `from + 1`, ... */
  function ContainsFrom(s: string, sub: string, from: nat): (b: bool)
    ensures b ==> exists i :: from <= i && OccursAt(s, sub, i)
    decreases |s| - from
  {
    if from + |sub| > |s| then false
    else if s[from..from + |sub|] == sub then assert OccursAt(s, sub, from); true
    else ContainsFrom(s, sub, from + 1)
  }

  /** `s.includes(sub)`: true exactly when `sub` occurs at some position. */
  function Contains(s: string, sub: string): (b: bool)
    ensures b <==> exists i :: OccursAt(s, sub, i)
  {
    assert (exists i :: OccursAt(s, sub, i)) ==> ContainsFrom(s, sub, 0) by {
      if exists i :: OccursAt(s, sub, i) {
        var i :| OccursAt(s, sub, i);
        ContainsFromComplete(s, sub, 0, i);
      }
    }
    ContainsFrom(s, sub, 0)
  }

  /** The search misses no occurrence at or after its start position. */
  lemma {:induction false} ContainsFromComplete(s: string, sub: string, from: nat, i: int)
    requires from <= i && OccursAt(s, sub, i)
    ensures ContainsFrom(s, sub, from)
    decreases |s| - from
  {
    if s[from..from + |sub|] != sub {
      ContainsFromComplete(s, sub, from + 1, i);
    }
  }

  /** A pattern holding a character that `s` lacks does not occur in `s`. */
  lemma MissingCharNotContained(s: string, sub: string, c: char)
    requires c in sub && c !in s
    ensures !Contains(s, sub)
  {
  }

  /** A string containing `t + u` contains `t`. */
  lemma ContainsPrefixOfPattern(s: string, t: string, u: string)
    requires Contains(s, t + u)
    ensures Contains(s, t)
  {
    var i :| OccursAt(s, t + u, i);
    assert s[i..i + |t|] == (t + u)[..|t|] == t;
    assert OccursAt(s, t, i);
  }

  /** `xs.join(sep)`. */
  function Join(xs: seq<string>, sep: string): (r: string)
    ensures xs == [] ==> r == ""
    ensures |xs| == 1 ==> r == xs[0]
  {
    if xs == [] then "" else if |xs| == 1 then xs[0] else xs[0] + sep + Join(xs[1..], sep)
  }

  function TotalLength(xs: seq<string>): nat
  {
    if xs == [] then 0 else |xs[0]| + TotalLength(xs[1..])
  }

  /** A join holds every part and one separator between each two, and
      nothing more. */
  lemma {:induction false} JoinLength(xs: seq<string>, sep: string)
    requires xs != []
    ensures |Join(xs, sep)| == TotalLength(xs) + (|xs| - 1) * |sep|
  {
    if |xs| > 1 {
      JoinLength(xs[1..], sep);
    }
  }

  /** Where the `i`-th part starts in a join: after the parts before it and
      one separator for each of them. */
  function PartOffset(xs: seq<string>, sep: string, i: nat): nat
    requires i <= |xs|
  {
    TotalLength(xs[..i]) + i * |sep|
  }

  /** An occurrence in `b` is an occurrence in `a + b`, shifted by `|a|`. */
  lemma OccursAfter(a: string, b: string, sub: string, p: int)
    requires OccursAt(b, sub, p)
    ensures OccursAt(a + b, sub, |a| + p)
  {
    assert (a + b)[|a| + p..|a| + p + |sub|] == b[p..p + |sub|];
  }

  /** The offset of a later part, counted from after the first part and its
      separator. */
  lemma PartOffsetTail(xs: seq<string>, sep: string, i: nat)
    requires 0 < i < |xs|
    ensures PartOffset(xs, sep, i) == |xs[0]| + |sep| + PartOffset(xs[1..], sep, i - 1)
  {
    assert xs[..i] == [xs[0]] + xs[1..][..i - 1];
    assert ([xs[0]] + xs[1..][..i - 1])[1..] == xs[1..][..i - 1];
    assert i * |sep| == |sep| + (i - 1) * |sep|;
  }

  /** The join holds the `i`-th part at its offset, followed by the separator
      unless it is the last part. */
  lemma {:induction false} JoinParts(xs: seq<string>, sep: string, i: nat)
    requires i < |xs|
    ensures OccursAt(Join(xs, sep), xs[i], PartOffset(xs, sep, i))
    ensures i + 1 < |xs| ==> OccursAt(Join(xs, sep), sep, PartOffset(xs, sep, i) + |xs[i]|)
    decreases i
  {
    if |xs| == 1 {
      assert xs[..0] == [];
      assert Join(xs, sep)[0..|xs[0]|] == xs[0];
    } else if i == 0 {
      JoinFirst(xs, sep);
    } else {
      var head := xs[0] + sep;
      var rest := Join(xs[1..], sep);
      assert Join(xs, sep) == head + rest;
      JoinParts(xs[1..], sep, i - 1);
      PartOffsetTail(xs, sep, i);
      assert xs[1..][i - 1] == xs[i];
      OccursAfter(head, rest, xs[i], PartOffset(xs[1..], sep, i - 1));
      if i + 1 < |xs| {
        OccursAfter(head, rest, sep, PartOffset(xs[1..], sep, i - 1) + |xs[i]|);
      }
    }
  }

  /** A join of two or more parts starts with the first part and a separator. */
  lemma JoinFirst(xs: seq<string>, sep: string)
    requires |xs| > 1
    ensures OccursAt(Join(xs, sep), xs[0], PartOffset(xs, sep, 0))
    ensures OccursAt(Join(xs, sep), sep, PartOffset(xs, sep, 0) + |xs[0]|)
  {
    var j := Join(xs, sep);
    assert xs[..0] == [];
    assert j == xs[0] + sep + Join(xs[1..], sep);
    assert j[0..|xs[0]|] == xs[0];
    assert j[|xs[0]|..|xs[0]| + |sep|] == sep;
  }

  function DigitChar(d: nat): (c: char)
    requires d < 10
    ensures '0' <= c <= '9'
  {
    ('0' as int + d) as char
  }

  /** The number a string of decimal digits denotes, most significant first. */
  function DecimalValue(s: string): int
    decreases |s|
  {
    if s == [] then 0 else DecimalValue(s[..|s| - 1]) * 10 + (s[|s| - 1] as int - '0' as int)
  }

  /** `${n}` for a non-negative integer below 10^21, where JavaScript still
      prints plain digits: its decimal digits, without leading zeros. */
  function NatToString(n: nat): (r: string)
    ensures 1 <= |r|
    ensures forall i :: 0 <= i < |r| ==> '0' <= r[i] <= '9'
    ensures |r| > 1 ==> r[0] != '0'
  {
    if n < 10 then [DigitChar(n)] else NatToString(n / 10) + [DigitChar(n % 10)]
  }

  /** The digits of `n` denote `n`. */
  lemma {:induction false} NatToStringValue(n: nat)
    ensures DecimalValue(NatToString(n)) == n
    decreases n
  {
    var r := NatToString(n);
    if n < 10 {
      assert r[..0] == [];
    } else {
      var p := NatToString(n / 10);
      assert r[..|r| - 1] == p;
      NatToStringValue(n / 10);
    }
  }

  /** `${n}` for an integer of magnitude below 10^21: a minus sign exactly for
      negative numbers, followed by the digits of the magnitude. */
  function IntToString(n: int): (r: string)
    ensures 1 <= |r|
    ensures n < 0 <==> r[0] == '-'
  {
    if n < 0 then "-" + NatToString(-n) else NatToString(n)
  }

  /** The rendering of `n` denotes `n`: digits only for a non-negative
      number, a minus sign and the digits of the magnitude for a negative one. */
  lemma IntToStringValue(n: int)
    ensures n >= 0 ==> DecimalValue(IntToString(n)) == n
    ensures n < 0 ==> 2 <= |IntToString(n)| && DecimalValue(IntToString(n)[1..]) == -n
    ensures forall i :: (if n < 0 then 1 else 0) <= i < |IntToString(n)| ==> '0' <= IntToString(n)[i] <= '9'
  {
    if n < 0 {
      var d := NatToString(-n);
      var r := "-" + d;
      assert IntToString(n) == r;
      assert r[1..] == d;
      assert forall i :: 1 <= i < |r| ==> r[i] == d[i - 1];
      NatToStringValue(-n);
    } else {
      NatToStringValue(n);
    }
  }
}
