/** Running one step function over and over. */
module Stepping {
  function Iterate<W>(step: W -> W, w: W, n: nat): W {
    if n == 0 then w else step(Iterate(step, w, n - 1))
  }

  /** Some number of steps leads from w to v. */
  ghost predicate Leads<W>(step: W -> W, w: W, v: W) {
    exists n: nat :: Iterate(step, w, n) == v
  }

  lemma Here<W>(step: W -> W, w: W)
    ensures Leads(step, w, w)
  {
    assert Iterate(step, w, 0) == w;
  }

  lemma Hop<W>(step: W -> W, w: W, u: W, v: W)
    requires Leads(step, w, u) && step(u) == v
    ensures Leads(step, w, v)
  {
    var n: nat :| Iterate(step, w, n) == u;
    assert Iterate(step, w, n + 1) == v;
  }
}
