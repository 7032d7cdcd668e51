/** File names of the LittleFS backend, as `snprintk` builds them. */
module LfsPaths {
  function Digit(d: nat): (c: char)
    requires d < 10
    ensures c != '_'
  {
    '0' + d as char
  }

  /** The `%d` conversion of a non-negative number. */
  function Decimal(n: nat): (s: string)
    ensures s != [] && '_' !in s
  {
    if n < 10 then [Digit(n)] else Decimal(n / 10) + [Digit(n % 10)]
  }

  lemma {:induction false} DecimalInjective(m: nat, n: nat)
    requires Decimal(m) == Decimal(n)
    ensures m == n
  {
    var s, t := Decimal(m), Decimal(n);
    assert s[|s| - 1] == Digit(m % 10) && t[|t| - 1] == Digit(n % 10);
    if m >= 10 && n >= 10 {
      assert s[..|s| - 1] == Decimal(m / 10) && t[..|t| - 1] == Decimal(n / 10);
      DecimalInjective(m / 10, n / 10);
    }
  }

  function DataPath(mount: string, name: string, index: nat): string {
    mount + "/" + name + "_" + Decimal(index) + ".bin"
  }

  function HeaderPath(mount: string, name: string): string {
    mount + "/" + name + ".header"
  }

  /** After the separating underscore there is no other. */
  lemma NoLaterUnderscore(a: string, d: string, k: nat)
    requires '_' !in d && k < |a + "_" + d| && (a + "_" + d)[k] == '_'
    ensures k <= |a|
  {
    assert forall i :: |a| < i < |a + "_" + d| ==> (a + "_" + d)[i] == d[i - |a| - 1];
  }

  /** The last underscore separates the name from the number. */
  lemma SplitAtUnderscore(a: string, d: string, b: string, e: string)
    requires '_' !in d && '_' !in e
    requires a + "_" + d == b + "_" + e
    ensures a == b && d == e
  {
    var s, t := a + "_" + d, b + "_" + e;
    assert s[|a|] == '_' && t[|b|] == '_';
    NoLaterUnderscore(a, d, |b|);
    NoLaterUnderscore(b, e, |a|);
    assert a == s[..|a|] && b == t[..|b|];
    assert d == s[|a| + 1..] && e == t[|b| + 1..];
  }

  lemma CancelEnds(pre: string, s: string, t: string, post: string)
    requires pre + s + post == pre + t + post
    ensures s == t
  {
    assert |s| == |t|;
    assert s == (pre + s + post)[|pre|..|pre| + |s|];
    assert t == (pre + t + post)[|pre|..|pre| + |t|];
  }

  /** No two (type, file index) pairs share a data file. */
  lemma DataPathInjective(mount: string, n1: string, i1: nat, n2: string, i2: nat)
    requires DataPath(mount, n1, i1) == DataPath(mount, n2, i2)
    ensures n1 == n2 && i1 == i2
  {
    var s1, s2 := n1 + "_" + Decimal(i1), n2 + "_" + Decimal(i2);
    assert DataPath(mount, n1, i1) == (mount + "/") + s1 + ".bin";
    assert DataPath(mount, n2, i2) == (mount + "/") + s2 + ".bin";
    CancelEnds(mount + "/", s1, s2, ".bin");
    SplitAtUnderscore(n1, Decimal(i1), n2, Decimal(i2));
    DecimalInjective(i1, i2);
  }

  lemma HeaderPathInjective(mount: string, n1: string, n2: string)
    requires HeaderPath(mount, n1) == HeaderPath(mount, n2)
    ensures n1 == n2
  {
    CancelEnds(mount + "/", n1, n2, ".header");
  }

  /** A data file is never a header file. */
  lemma DataIsNotHeader(mount: string, n1: string, i: nat, n2: string)
    ensures DataPath(mount, n1, i) != HeaderPath(mount, n2)
  {
    var d, h := DataPath(mount, n1, i), HeaderPath(mount, n2);
    assert d[|d| - 1] == 'n' && h[|h| - 1] == 'r';
  }
}
