/** The few pieces of Python's string behaviour the model relies on:
    substring membership (`sub in s`), `str.startswith`, `sep.join(lines)`,
    `str(n)` for a non-negative integer and `repr` of a list of strings. */
module Strings {

  /** A host name, as fabric's `env` and the cluster helpers write it. */
  type Host = string

  /** `s.startswith(prefix)`. */
  predicate StartsWith(s: string, prefix: string) {
    |prefix| <= |s| && s[..|prefix|] == prefix
  }

  /** `sub` occurs in `s` starting at position `i`. */
  predicate OccursAt(s: string, sub: string, i: int) {
    0 <= i <= |s| - |sub| && s[i..i + |sub|] == sub
  }

  /** `sub in s`: `sub` occurs in `s` as a contiguous run. */
  predicate Contains(s: string, sub: string) {
    exists i :: 0 <= i <= |s| && OccursAt(s, sub, i)
  }

  /** A string occurs in any string that has it as a middle part. */
  lemma ContainsMiddle(a: string, b: string, c: string)
    ensures Contains(a + b + c, b)
  {
    var s := a + b + c;
    assert s[|a|..|a| + |b|] == b;
    assert 0 <= |a| <= |s| && OccursAt(s, b, |a|);
  }

  /** Containment survives putting more text on both sides. */
  lemma ContainsWithin(a: string, s: string, c: string, sub: string)
    requires Contains(s, sub)
    ensures Contains(a + s + c, sub)
  {
    var i :| 0 <= i <= |s| && OccursAt(s, sub, i);
    var t := a + s + c;
    assert t[|a| + i..|a| + i + |sub|] == s[i..i + |sub|];
    assert 0 <= |a| + i <= |t| && OccursAt(t, sub, |a| + i);
  }

  /** Containment is transitive. */
  lemma ContainsTransitive(s: string, t: string, sub: string)
    requires Contains(s, t) && Contains(t, sub)
    ensures Contains(s, sub)
  {
    var i :| 0 <= i <= |s| && OccursAt(s, t, i);
    var j :| 0 <= j <= |t| && OccursAt(t, sub, j);
    assert t == s[i..i + |t|];
    forall m | 0 <= m < |sub| ensures s[i + j + m] == sub[m] {
      assert sub[m] == t[j + m];
    }
    assert s[i + j..i + j + |sub|] == sub;
    assert 0 <= i + j <= |s| && OccursAt(s, sub, i + j);
  }

  /** `sep.join(lines)`. */
  function Join(lines: seq<string>, sep: string): string
  {
    if |lines| == 0 then ""
    else if |lines| == 1 then lines[0]
    else lines[0] + sep + Join(lines[1..], sep)
  }

  /** Joining a concatenation puts one separator between the two joined halves. */
  lemma {:induction false} JoinAppend(a: seq<string>, b: seq<string>, sep: string)
    requires a != [] && b != []
    ensures Join(a + b, sep) == Join(a, sep) + sep + Join(b, sep)
  {
    if |a| == 1 {
      assert (a + b)[1..] == b;
    } else {
      assert (a + b)[1..] == a[1..] + b;
      JoinAppend(a[1..], b, sep);
    }
  }

  /** The joined text of a non-empty run of lines occurs in the joined text of
      any sequence that has the run in it. */
  lemma JoinInfix(a: seq<string>, b: seq<string>, c: seq<string>, sep: string)
    requires b != []
    ensures Contains(Join(a + b + c, sep), Join(b, sep))
  {
    var jb := Join(b, sep);
    if a == [] && c == [] {
      assert a + b + c == b;
      ContainsMiddle("", jb, "");
      assert "" + jb + "" == jb;
    } else if a == [] {
      assert a + b + c == b + c;
      JoinAppend(b, c, sep);
      ContainsMiddle("", jb, sep + Join(c, sep));
      assert "" + jb + (sep + Join(c, sep)) == Join(b + c, sep);
    } else if c == [] {
      assert a + b + c == a + b;
      JoinAppend(a, b, sep);
      ContainsMiddle(Join(a, sep) + sep, jb, "");
      assert Join(a, sep) + sep + jb + "" == Join(a + b, sep);
    } else {
      assert a + b + c == a + (b + c);
      JoinAppend(a, b + c, sep);
      JoinAppend(b, c, sep);
      ContainsMiddle(Join(a, sep) + sep, jb, sep + Join(c, sep));
      assert Join(a, sep) + sep + jb + (sep + Join(c, sep)) == Join(a + (b + c), sep);
    }
  }

  /** Every joined line occurs in the joined text. */
  lemma {:induction false} JoinContains(lines: seq<string>, sep: string, k: nat)
    requires k < |lines|
    ensures Contains(Join(lines, sep), lines[k])
  {
    if |lines| == 1 {
      ContainsMiddle("", lines[0], "");
      assert "" + lines[0] + "" == lines[0];
    } else if k == 0 {
      ContainsMiddle("", lines[0], sep + Join(lines[1..], sep));
      assert "" + lines[0] + (sep + Join(lines[1..], sep)) == Join(lines, sep);
    } else {
      JoinContains(lines[1..], sep, k - 1);
      ContainsWithin(lines[0] + sep, Join(lines[1..], sep), "", lines[k]);
      assert lines[0] + sep + Join(lines[1..], sep) + "" == Join(lines, sep);
    }
  }

  /** The character of a decimal digit. */
  function DigitChar(d: nat): (c: char)
    requires d < 10
    ensures '0' <= c <= '9'
  {
    (48 + d) as char
  }

  /** `str(n)` for a non-negative integer: its decimal digits, no leading zero. */
  function NatToString(n: nat): (s: string)
    ensures |s| > 0
    ensures forall i :: 0 <= i < |s| ==> '0' <= s[i] <= '9'
    ensures |s| > 1 ==> s[0] != '0'
    decreases n
  {
    if n < 10 then [DigitChar(n)] else NatToString(n / 10) + [DigitChar(n % 10)]
  }

  /** `int(s)` for a string of decimal digits. */
  function ParseNat(s: string): nat
    requires forall i :: 0 <= i < |s| ==> '0' <= s[i] <= '9'
  {
    if s == [] then 0 else ParseNat(s[..|s| - 1]) * 10 + (s[|s| - 1] as int - 48)
  }

  /** `int(str(n)) == n`: the decimal rendering loses nothing. */
  lemma {:induction false} ParseNatToString(n: nat)
    ensures ParseNat(NatToString(n)) == n
    decreases n
  {
    var s := NatToString(n);
    if n >= 10 {
      ParseNatToString(n / 10);
      assert s[..|s| - 1] == NatToString(n / 10);
    }
  }

  /** `repr` of a plain string: the text between single quotes. */
  function Repr(s: string): string {
    "'" + s + "'"
  }

  /** `repr` (or `%s`) of a list of plain strings, as in `['a', 'b']`. */
  function ReprList(xs: seq<string>): (r: string)
    ensures forall k :: 0 <= k < |xs| ==> Contains(r, Repr(xs[k]))
  {
    var items := seq(|xs|, i requires 0 <= i < |xs| => Repr(xs[i]));
    var body := Join(items, ", ");
    assert forall k :: 0 <= k < |xs| ==> Contains("[" + body + "]", Repr(xs[k])) by {
      forall k | 0 <= k < |xs| ensures Contains("[" + body + "]", Repr(xs[k])) {
        JoinContains(items, ", ", k);
        ContainsWithin("[", body, "]", items[k]);
      }
    }
    "[" + body + "]"
  }
}
