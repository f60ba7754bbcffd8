/** Value types shared by every part of the model: machine-sized integers,
    identifiers, byte strings and the two result wrappers. */
module Types {
  datatype Option<+T> = None | Some(value: T) {
    predicate IsFailure() { None? }
    function PropagateFailure<U>(): Option<U> requires None? { None }
    function Extract(): T requires Some? { value }
  }

  datatype Result<+T, +E> = Ok(value: T) | Err(error: E) {
    predicate IsFailure() { Err? }
    function PropagateFailure<U>(): Result<U, E> requires Err? { Err(error) }
    function Extract(): T requires Ok? { value }
  }

  const TWO_TO_32: int := 0x1_0000_0000
  const TWO_TO_63: int := 0x8000_0000_0000_0000
  const TWO_TO_64: int := 0x1_0000_0000_0000_0000
  const TWO_TO_128: int := 0x1_0000_0000_0000_0000_0000_0000_0000_0000

  type Byte = x: int | 0 <= x < 256
  type U32 = x: int | 0 <= x < 0x1_0000_0000
  type U64 = x: int | 0 <= x < 0x1_0000_0000_0000_0000
  type I64 = x: int | -0x8000_0000_0000_0000 <= x < 0x8000_0000_0000_0000

  type Bytes = seq<Byte>

  /** UTF-8 text, as its bytes: every comparison the store makes is bytewise. */
  type Text = seq<Byte>

  /** A 128-bit identifier. Numeric order is the lexicographic order of its sixteen big-endian bytes. */
  type Id = x: int | 0 <= x < 0x1_0000_0000_0000_0000_0000_0000_0000_0000

  const ZERO_ID: Id := 0

  function Ascii(s: string): Text {
    seq(|s|, i requires 0 <= i < |s| => (s[i] as int) % 256)
  }

  /** The `width` low bytes of a number, most significant first. */
  function BigEndian(n: nat, width: nat): (r: Bytes)
    ensures |r| == width
  {
    if width == 0 then [] else BigEndian(n / 256, width - 1) + [n % 256]
  }

  predicate Distinct<T(==)>(s: seq<T>) {
    forall i, j :: 0 <= i < j < |s| ==> s[i] != s[j]
  }

  /** A duplicate-free sequence drawn from a finite set is no longer than the set. */
  lemma {:induction false} DistinctFits<T>(s: seq<T>, within: set<T>)
    requires Distinct(s)
    requires forall x :: x in s ==> x in within
    ensures |s| <= |within|
  {
    if s != [] {
      var last := s[|s| - 1];
      var rest := s[..|s| - 1];
      forall x | x in rest ensures x in within - {last} {
        var i :| 0 <= i < |rest| && rest[i] == x;
        assert s[i] != s[|s| - 1];
      }
      DistinctFits(rest, within - {last});
    }
  }

  /** The same, with equality when the sequence lists the whole set. */
  lemma {:induction false} DistinctCount<T>(s: seq<T>, all: set<T>)
    requires Distinct(s)
    requires forall x :: x in s <==> x in all
    ensures |s| == |all|
  {
    if s == [] {
      assert all == {};
    } else {
      var last := s[|s| - 1];
      var rest := s[..|s| - 1];
      forall x ensures x in rest <==> x in all - {last} {
        if x in rest {
          var i :| 0 <= i < |rest| && rest[i] == x;
          assert s[i] != s[|s| - 1];
        }
        if x in all - {last} {
          var i :| 0 <= i < |s| && s[i] == x;
          assert rest[i] == x;
        }
      }
      DistinctCount(rest, all - {last});
    }
  }

  predicate IsGreatest(m: nat, s: set<nat>) {
    m in s && forall x :: x in s ==> x <= m
  }

  /** The greatest element of a finite set of numbers, 0 for the empty set (COALESCE(MAX(..), 0)). */
  function MaxOrZero(s: set<nat>): (m: nat)
    ensures if s == {} then m == 0 else IsGreatest(m, s)
  {
    if s == {} then 0
    else
      GreatestExists(s);
      var m: nat :| IsGreatest(m, s);
      m
  }

  lemma GreatestExists(s: set<nat>)
    requires s != {}
    ensures exists m: nat :: IsGreatest(m, s)
  {
    var x :| x in s;
    var rest := s - {x};
    if rest == {} {
      assert forall y :: y in s ==> y == x || y in rest;
      assert IsGreatest(x, s);
    } else {
      GreatestExists(rest);
      var m: nat :| IsGreatest(m, rest);
      assert forall y :: y in s ==> y == x || y in rest;
      assert IsGreatest(if m < x then x else m, s);
    }
  }
}
