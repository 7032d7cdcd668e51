/** Zephyr's hierarchical state machine framework, on the paths of a chart: a state is known by its
    ancestors, root first, itself last. */
module Smf {
  /** How many ancestors two states share. */
  function Shared<S(==)>(a: seq<S>, b: seq<S>): (n: nat)
    ensures n <= |a| && n <= |b| && a[..n] == b[..n]
    ensures n < |a| && n < |b| ==> a[n] != b[n]
  {
    if a == [] || b == [] || a[0] != b[0] then 0
    else
      var n := 1 + Shared(a[1..], b[1..]);
      assert a[..n] == [a[0]] + a[1..][..n - 1] && b[..n] == [b[0]] + b[1..][..n - 1];
      n
  }

  lemma SharedIs<S>(a: seq<S>, b: seq<S>, n: nat)
    requires n <= |a| && n <= |b| && a[..n] == b[..n]
    requires n < |a| && n < |b| ==> a[n] != b[n]
    ensures Shared(a, b) == n
  {
    var m := Shared(a, b);
    assert forall i :: 0 <= i < n ==> a[..n][i] == b[..n][i];
    assert forall i :: 0 <= i < m ==> a[..m][i] == b[..m][i];
  }

  /** A transition requested by the handler of state `executing` leaves what lies below this depth; a
      transition of a state to itself leaves and enters it. */
  function Top<S(==)>(executing: seq<S>, target: seq<S>): (n: nat)
    requires target != []
    ensures n <= |target| && n <= |executing|
  {
    if executing == target then |target| - 1 else Shared(executing, target)
  }
}
