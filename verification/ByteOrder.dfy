/** The bytewise lexicographic order that SQLite uses for keys (shorter is smaller on ties). */
module ByteOrder {
  import opened Types

  predicate Less(a: Bytes, b: Bytes) {
    if b == [] then false
    else if a == [] then true
    else a[0] < b[0] || (a[0] == b[0] && Less(a[1..], b[1..]))
  }

  predicate AtMost(a: Bytes, b: Bytes) { a == b || Less(a, b) }

  /** Smaller means a proper prefix, or a smaller byte at the first place of difference. */
  lemma {:induction false} LessMeans(a: Bytes, b: Bytes)
    ensures Less(a, b) <==> exists n :: 0 <= n <= |a| && n < |b| && a[..n] == b[..n] && (n == |a| || a[n] < b[n])
  {
    forall n | 0 < n <= |a| && n <= |b| && a[..n] == b[..n] ensures a[0] == b[0] { assert a[..n][0] == b[..n][0]; }
    if a != [] && b != [] && a[0] == b[0] {
      LessMeans(a[1..], b[1..]);
      if n :| 0 <= n <= |a[1..]| && n < |b[1..]| && a[1..][..n] == b[1..][..n] && (n == |a[1..]| || a[1..][n] < b[1..][n]) {
        var m := n + 1;
        assert a[..m] == [a[0]] + a[1..][..n] && b[..m] == [b[0]] + b[1..][..n];
      }
      if m :| 0 <= m <= |a| && m < |b| && a[..m] == b[..m] && (m == |a| || a[m] < b[m]) {
        assert m > 0;
        assert a[1..][..m - 1] == a[..m][1..] && b[1..][..m - 1] == b[..m][1..];
      }
    } else if a != [] && b != [] {
      assert a[..0] == b[..0];
    } else {
      assert a[..0] == b[..0];
    }
  }

  lemma {:induction false} LessIrreflexive(a: Bytes)
    ensures !Less(a, a)
  {
    if a != [] { LessIrreflexive(a[1..]); }
  }

  lemma {:induction false} LessTransitive(a: Bytes, b: Bytes, c: Bytes)
    requires Less(a, b) && Less(b, c)
    ensures Less(a, c)
  {
    if a != [] && a[0] == b[0] == c[0] { LessTransitive(a[1..], b[1..], c[1..]); }
  }

  lemma {:induction false} LessTotal(a: Bytes, b: Bytes)
    ensures a == b || Less(a, b) || Less(b, a)
  {
    if a != [] && b != [] && a[0] == b[0] {
      LessTotal(a[1..], b[1..]);
      assert a == [a[0]] + a[1..] && b == [b[0]] + b[1..];
    }
  }

  lemma LessAsymmetric(a: Bytes, b: Bytes)
    requires Less(a, b)
    ensures a != b && !Less(b, a)
  {
    if Less(b, a) { LessTransitive(a, b, a); }
    LessIrreflexive(a);
  }

  /** Everything the order axioms say about three keys at once. */
  lemma Order3(a: Bytes, b: Bytes, c: Bytes)
    ensures !Less(a, a) && !Less(b, b) && !Less(c, c)
    ensures a == b || Less(a, b) || Less(b, a)
    ensures b == c || Less(b, c) || Less(c, b)
    ensures a == c || Less(a, c) || Less(c, a)
    ensures !(Less(a, b) && Less(b, a)) && !(Less(b, c) && Less(c, b)) && !(Less(a, c) && Less(c, a))
    ensures Less(a, b) && Less(b, c) ==> Less(a, c)
    ensures Less(b, c) && Less(c, a) ==> Less(b, a)
    ensures Less(c, a) && Less(a, b) ==> Less(c, b)
    ensures Less(b, a) && Less(a, c) ==> Less(b, c)
    ensures Less(a, c) && Less(c, b) ==> Less(a, b)
    ensures Less(c, b) && Less(b, a) ==> Less(c, a)
  {
    LessIrreflexive(a); LessIrreflexive(b); LessIrreflexive(c);
    LessTotal(a, b); LessTotal(b, c); LessTotal(a, c);
    Triple(a, b, c); Triple(b, c, a); Triple(c, a, b);
    Triple(b, a, c); Triple(a, c, b); Triple(c, b, a);
    Triple(a, b, a); Triple(b, c, b); Triple(a, c, a);
  }

  lemma Triple(a: Bytes, b: Bytes, c: Bytes)
    ensures Less(a, b) && Less(b, c) ==> Less(a, c)
  {
    if Less(a, b) && Less(b, c) { LessTransitive(a, b, c); }
  }

  // ----- ordered listings -----

  ghost predicate Ascending(s: seq<Bytes>) {
    forall i, j :: 0 <= i < j < |s| ==> Less(s[i], s[j])
  }

  predicate IsLeast(m: Bytes, s: set<Bytes>) {
    m in s && forall x :: x in s ==> AtMost(m, x)
  }

  lemma LeastExists(s: set<Bytes>)
    requires s != {}
    ensures exists m :: IsLeast(m, s)
  {
    var x :| x in s;
    var rest := s - {x};
    assert forall y :: y in s ==> y == x || y in rest;
    if rest == {} {
      assert IsLeast(x, s);
    } else {
      LeastExists(rest);
      var m :| IsLeast(m, rest);
      LessTotal(m, x);
      var best := if Less(x, m) then x else m;
      forall y | y in s ensures AtMost(best, y) {
        if y in rest { Triple(x, m, y); }
      }
      assert IsLeast(best, s);
    }
  }

  /** The least element of a set of keys. */
  function Least(s: set<Bytes>): (m: Bytes)
    requires s != {}
    ensures IsLeast(m, s)
  {
    LeastExists(s);
    LeastUnique(s);
    var m :| IsLeast(m, s);
    m
  }

  lemma LeastUnique(s: set<Bytes>)
    ensures forall m, n :: IsLeast(m, s) && IsLeast(n, s) ==> m == n
  {
    forall m, n | IsLeast(m, s) && IsLeast(n, s) ensures m == n {
      if m != n { LessAsymmetric(m, n); }
    }
  }

  /** A set of keys listed in key order (ORDER BY key). */
  function InOrder(s: set<Bytes>): (r: seq<Bytes>)
    ensures Ascending(r)
    ensures forall k :: k in r <==> k in s
    ensures |r| == |s|
  {
    if s == {} then []
    else
      var m := Least(s);
      var rest := InOrder(s - {m});
      assert Ascending([m] + rest) by { LeastFirst(m, rest); }
      [m] + rest
  }

  lemma LeastFirst(m: Bytes, rest: seq<Bytes>)
    requires Ascending(rest)
    requires m !in rest && forall k :: k in rest ==> AtMost(m, k)
    ensures Ascending([m] + rest)
  {
    var all := [m] + rest;
    forall i, j | 0 <= i < j < |all| ensures Less(all[i], all[j]) {
      if i == 0 { assert all[j] == rest[j - 1] && all[j] in rest; }
      else { assert all[i] == rest[i - 1] && all[j] == rest[j - 1]; }
    }
  }

  /** An ascending listing is determined by the keys it lists. */
  lemma {:induction false} AscendingUnique(a: seq<Bytes>, b: seq<Bytes>)
    requires Ascending(a) && Ascending(b)
    requires forall k :: k in a <==> k in b
    ensures a == b
  {
    assert a == [] || a[0] in a;
    assert b == [] || b[0] in b;
    if a != [] && b != [] {
      if a[0] != b[0] {
        assert a[0] in b && b[0] in a;
        LessAsymmetric(a[0], b[0]);
      }
      forall k ensures k in a[1..] <==> k in b[1..] {
        LessIrreflexive(a[0]);
        if k in a[1..] { assert k in a && Less(a[0], k); assert k in b; }
        if k in b[1..] { assert k in b && Less(b[0], k); assert k in a; }
      }
      AscendingUnique(a[1..], b[1..]);
      assert a == [a[0]] + a[1..] && b == [b[0]] + b[1..];
    }
  }
}
