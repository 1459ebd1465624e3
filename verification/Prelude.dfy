/** Datatypes shared by several modules. */
module Prelude {
  /** A value that may be absent (null or undefined in the source). */
  datatype Option<+T> = None | Some(value: T)

  /** What an idle loop may do with a finding (`IdleLoopMode`). */
  datatype Mode = ObserveOnly | CreateDraftTickets | CreateReadyTickets

  lemma Associate<T>(a: seq<T>, b: seq<T>, c: seq<T>)
    ensures (a + b) + c == a + (b + c)
  {
  }

  function Flatten<T>(xss: seq<seq<T>>): seq<T> {
    if xss == [] then [] else xss[0] + Flatten(xss[1..])
  }

  /** Entry `i` of the concatenation is entry `j` of part `n`. */
  predicate LiesAt<T(==)>(xss: seq<seq<T>>, i: nat, n: nat, j: nat) {
    && n < |xss| && j < |xss[n]| && j <= i < |Flatten(xss)|
    && Flatten(xss)[i] == xss[n][j] && Flatten(xss)[i - j..i] == xss[n][..j]
    && i == |Flatten(xss[..n])| + j
  }

  lemma {:induction false} Locate<T>(xss: seq<seq<T>>, i: nat) returns (n: nat, j: nat)
    requires i < |Flatten(xss)|
    ensures LiesAt(xss, i, n, j)
  {
    var first, others := xss[0], xss[1..];
    if i < |first| {
      n, j := 0, i;
      assert xss[..0] == [] && (first + Flatten(others))[..i] == first[..i];
    } else {
      var m;
      m, j := Locate(others, i - |first|);
      n := m + 1;
      assert xss[..n][0] == first && xss[..n][1..] == others[..m];
      assert (first + Flatten(others))[i - j..i] == Flatten(others)[i - |first| - j..i - |first|];
    }
  }
}
