/** Small definitions shared by the other modules. */
module Prelude {

  datatype Option<+T> = None | Some(value: T) {
    function GetOr(default: T): T { if Some? then value else default }
  }

  function Min(a: int, b: int): int { if a < b then a else b }

  function Max(a: int, b: int): int { if a < b then b else a }

  lemma Associate<T>(a: seq<T>, b: seq<T>, c: seq<T>)
    ensures (a + b) + c == a + (b + c)
  {
  }

  /** The parts joined in their order. */
  function Flatten<T>(parts: seq<seq<T>>): seq<T> {
    if parts == [] then [] else Flatten(parts[..|parts| - 1]) + parts[|parts| - 1]
  }

  /** How many elements of `s` satisfy `p`. */
  ghost function Count<T(!new)>(p: T -> bool, s: seq<T>): nat {
    if s == [] then 0 else Count(p, s[..|s| - 1]) + if p(s[|s| - 1]) then 1 else 0
  }

  lemma {:induction false} CountUpdate<T(!new)>(p: T -> bool, s: seq<T>, i: nat, x: T)
    requires i < |s|
    ensures Count(p, s[i := x]) + (if p(s[i]) then 1 else 0) == Count(p, s) + (if p(x) then 1 else 0)
  {
    var last := |s| - 1;
    var t := s[i := x];
    if i == last {
      assert t[..last] == s[..last];
    } else {
      assert t[..last] == s[..last][i := x];
      CountUpdate(p, s[..last], i, x);
    }
  }

  lemma {:induction false} CountBounds<T(!new)>(p: T -> bool, s: seq<T>)
    ensures Count(p, s) <= |s|
    ensures (forall i :: 0 <= i < |s| ==> !p(s[i])) ==> Count(p, s) == 0
    ensures (exists i :: 0 <= i < |s| && !p(s[i])) ==> Count(p, s) < |s|
  {
    if s != [] { CountBounds(p, s[..|s| - 1]); }
  }

  lemma {:induction false} CountWitness<T(!new)>(p: T -> bool, s: seq<T>) returns (i: nat)
    requires Count(p, s) > 0
    ensures i < |s| && p(s[i])
  {
    if p(s[|s| - 1]) { i := |s| - 1; } else { i := CountWitness(p, s[..|s| - 1]); }
  }

  lemma {:induction false} CountMember<T(!new)>(p: T -> bool, s: seq<T>, i: nat)
    requires i < |s| && p(s[i])
    ensures Count(p, s) > 0
  {
    if i < |s| - 1 { CountMember(p, s[..|s| - 1], i); }
  }

  /** A property held by at most one element is held by no second one. */
  lemma {:induction false} CountUnique<T(!new)>(p: T -> bool, s: seq<T>, i: nat, j: nat)
    requires i < |s| && j < |s| && p(s[i]) && p(s[j])
    requires Count(p, s) <= 1
    ensures i == j
  {
    if i != j {
      var lo, hi := Min(i, j), Max(i, j);
      if hi == |s| - 1 {
        CountMember(p, s[..|s| - 1], lo);
      } else {
        CountUnique(p, s[..|s| - 1], i, j);
      }
    }
  }
}
