/** The least element of a finite set of ids. */
module Least {
  lemma {:induction false} LeastExists(s: set<nat>) returns (least: nat)
    requires s != {}
    ensures least in s && forall x: nat | x in s :: least <= x
  {
    var x :| x in s;
    if s == {x} {
      least := x;
    } else {
      var m := LeastExists(s - {x});
      least := if x < m then x else m;
      forall y: nat | y in s ensures least <= y {
        if y != x { assert y in s - {x}; }
      }
    }
  }
}
