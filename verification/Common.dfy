/** Shared value types. */
module Common {

  datatype Option<+T> = None | Some(value: T)

  type UserId = nat
  type TaskId = nat
  type VersionId = nat
  type ActionId = nat
  type OperationId = nat
  type SessionId = nat
  type Token = nat

  function Min(a: nat, b: nat): nat {
    if a <= b then a else b
  }

  /* ---------- sets of identifiers in ascending order ---------- */

  lemma {:induction false} LeastExists(s: set<nat>) returns (m: nat)
    requires s != {}
    ensures m in s && forall x <- s :: m <= x
    decreases s
  {
    var x :| x in s;
    m := x;
    if y :| y in s && y < x {
      assert y in s - {x};
      m := LeastExists(s - {x});
      assert forall z <- s :: z == x || z in s - {x};
    }
  }

  function Least(s: set<nat>): (m: nat)
    requires s != {}
    ensures m in s && forall x <- s :: m <= x
  {
    assert exists m :: m in s && forall x <- s :: m <= x by { var m := LeastExists(s); }
    var m :| m in s && forall x <- s :: m <= x;
    m
  }

  function Ascending(s: set<nat>): (r: seq<nat>)
    ensures forall x :: x in r <==> x in s
    ensures forall i, j :: 0 <= i < j < |r| ==> r[i] < r[j]
  {
    if s == {} then [] else
      var m := Least(s);
      var rest := Ascending(s - {m});
      assert forall x :: x in [m] + rest <==> x == m || x in rest;
      [m] + rest
  }

  predicate NoRepeats<T(==)>(xs: seq<T>) {
    forall i, j :: 0 <= i < j < |xs| ==> xs[i] != xs[j]
  }

  method AnyOf<T(==)>(s: set<T>) returns (x: T)
    requires s != {}
    ensures x in s
  {
    x :| x in s;
  }

  lemma {:induction false} SubsetIsSmaller<T>(a: set<T>, b: set<T>)
    requires a <= b
    ensures |a| <= |b| && (a != b ==> |a| < |b|)
  {
    if a == {} {
      if b != {} { var y :| y in b; assert |b| > 0; }
    } else {
      var x :| x in a;
      SubsetIsSmaller(a - {x}, b - {x});
    }
  }

  predicate Space(c: char) {
    c == ' ' || c == '\t' || c == '\n' || c == '\r'
  }
}
