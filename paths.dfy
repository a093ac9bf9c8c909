/** File paths as the installers build them. `path.join` is modelled as joining with
    "/"; its normalisation and the Windows separator are not part of the model. */
module Paths {
  import opened Strings

  function PathJoin(dir: string, name: string): string
  {
    dir + "/" + name
  }

  /** Two joins whose last components contain no "/" are equal only when both their
      directories and their names are: distinct files in one directory, or files in
      distinct directories, never collide. */
  lemma JoinDistinct(d1: string, a: string, d2: string, b: string)
    requires '/' !in a && '/' !in b
    requires PathJoin(d1, a) == PathJoin(d2, b)
    ensures d1 == d2 && a == b
  {
    var s := PathJoin(d1, a);
    LastSeparator(d1, a);
    LastSeparator(d2, b);
    assert |d1| == |d2|;
    assert d1 == s[..|d1|] == d2;
    assert a == s[|d1| + 1..] == b;
  }

  /** Joins whose last components contain no "/" are equal exactly when their
      directories and their names are. */
  lemma JoinEq(d1: string, a: string, d2: string, b: string)
    requires '/' !in a && '/' !in b
    ensures PathJoin(d1, a) == PathJoin(d2, b) <==> d1 == d2 && a == b
  {
    if PathJoin(d1, a) == PathJoin(d2, b) {
      JoinDistinct(d1, a, d2, b);
    }
  }

  /** The "/" that a join inserts is the last one in the result. */
  lemma LastSeparator(dir: string, name: string)
    requires '/' !in name
    ensures PathJoin(dir, name)[|dir|] == '/'
    ensures forall i :: |dir| < i < |PathJoin(dir, name)| ==> PathJoin(dir, name)[i] != '/'
  {
    var s := PathJoin(dir, name);
    forall i | |dir| < i < |s|
      ensures s[i] != '/'
    {
      assert s[i] == name[i - |dir| - 1];
    }
  }

  /** Decimal rendering of a natural number, as a template literal prints it. */
  function Decimal(n: nat): (s: string)
    ensures |s| > 0
    ensures forall i :: 0 <= i < |s| ==> '0' <= s[i] <= '9'
  {
    if n < 10 then [(48 + n) as char] else Decimal(n / 10) + [(48 + n % 10) as char]
  }

  /** Exactly the numbers from 10 up take more than one digit. */
  lemma DecimalLong(n: nat)
    ensures n >= 10 <==> |Decimal(n)| >= 2
  {
    if n >= 10 {
      assert Decimal(n) == Decimal(n / 10) + [(48 + n % 10) as char];
    }
  }

  /** Distinct numbers have distinct renderings. */
  lemma {:induction false} DecimalInjective(m: nat, n: nat)
    requires Decimal(m) == Decimal(n)
    ensures m == n
  {
    DecimalLong(m);
    DecimalLong(n);
    if m >= 10 && n >= 10 {
      var dm, dn := Decimal(m), Decimal(n);
      assert dm[..|dm| - 1] == Decimal(m / 10);
      assert dn[..|dn| - 1] == Decimal(n / 10);
      DecimalInjective(m / 10, n / 10);
      assert dm[|dm| - 1] == dn[|dn| - 1];
    } else if m < 10 && n < 10 {
      assert Decimal(m)[0] == Decimal(n)[0];
    }
  }
}
