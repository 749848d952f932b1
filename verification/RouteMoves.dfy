/** How deferred route renames move alert events when no two of them collide: each event then walks
    the rename edges on its own. */
module RouteMoves {
  import opened AlertRows

  /** A deferred rename of a monitored target of one service. */
  datatype Edge = Edge(service: string, source: string, dest: string)

  const PREFIX := "routes: "

  function TrimPrefix(s: string, p: string): string {
    if p <= s then s[|p|..] else s
  }

  /** strings.ReplaceAll: non-overlapping, left to right; an empty pattern matches around every character. */
  function ReplaceAll(s: string, from: string, to: string): string {
    if from == "" then
      if s == "" then to else to + [s[0]] + ReplaceAll(s[1..], from, to)
    else if |s| < |from| then s
    else if from <= s then to + ReplaceAll(s[|from|..], from, to)
    else [s[0]] + ReplaceAll(s[1..], from, to)
  }

  /** The dedupe key under the new target: the full target is replaced, or else its bare route. */
  function RenameKey(key: string, edge: Edge): string {
    var whole := ReplaceAll(key, edge.source, edge.dest);
    if whole != key then whole
    else ReplaceAll(key, TrimPrefix(edge.source, PREFIX), TrimPrefix(edge.dest, PREFIX))
  }

  predicate Mutable(ev: Event) {
    ev.status.EventPending? || ev.status.EventFailed?
  }

  predicate AtSource(ev: Event, edge: Edge) {
    Mutable(ev) && ev.subject.service == edge.service && ev.subject.target == edge.source
  }

  function Retargeted(ev: Event, edge: Edge, secret: nat): Event {
    var key := RenameKey(ev.key, edge);
    ev.(subject := ev.subject.(target := edge.dest), key := key, hash := Hmac(secret, key))
  }

  function Move(ev: Event, edge: Edge, secret: nat): Event {
    if AtSource(ev, edge) then Retargeted(ev, edge, secret) else ev
  }

  /** Edge by edge, in queue order. */
  function Pass(ev: Event, edges: seq<Edge>, secret: nat): Event {
    if edges == [] then ev else Move(Pass(ev, edges[..|edges| - 1], secret), edges[|edges| - 1], secret)
  }

  function Passes(ev: Event, edges: seq<Edge>, n: nat, secret: nat): Event {
    if n == 0 then ev else Pass(Passes(ev, edges, n - 1, secret), edges, secret)
  }

  // --------------------------------------------------------------- walks

  /** w is a chain of edges from one node to another. */
  predicate Walk(w: seq<Edge>, service: string, from: string, to: string) {
    if w == [] then from == to
    else w[|w| - 1].service == service && w[|w| - 1].dest == to && Walk(w[..|w| - 1], service, from, w[|w| - 1].source)
  }

  ghost predicate Acyclic(edges: seq<Edge>) {
    forall w: seq<Edge>, service: string, node: string | w != [] && Walk(w, service, node, node) ::
      exists i | 0 <= i < |w| :: w[i] !in edges
  }

  predicate Over(w: seq<Edge>, edges: seq<Edge>) {
    forall i | 0 <= i < |w| :: w[i] in edges
  }

  /** The event after walking w, whatever its target was. */
  function Follow(ev: Event, w: seq<Edge>, secret: nat): Event {
    if w == [] then ev else Retargeted(Follow(ev, w[..|w| - 1], secret), w[|w| - 1], secret)
  }

  predicate Stuck(ev: Event, edges: seq<Edge>) {
    forall i | 0 <= i < |edges| :: !AtSource(ev, edges[i])
  }

  lemma {:induction false} FollowKeeps(ev: Event, w: seq<Edge>, secret: nat)
    ensures Follow(ev, w, secret).status == ev.status
    ensures Follow(ev, w, secret).subject.service == ev.subject.service
    ensures w != [] ==> Follow(ev, w, secret).subject.target == w[|w| - 1].dest
    ensures w != [] ==> Follow(ev, w, secret).hash == Hmac(secret, Follow(ev, w, secret).key)
  {
    if w != [] { FollowKeeps(ev, w[..|w| - 1], secret); }
  }

  lemma {:induction false} FollowAppend(ev: Event, u: seq<Edge>, w: seq<Edge>, secret: nat)
    ensures Follow(ev, u + w, secret) == Follow(Follow(ev, u, secret), w, secret)
  {
    if w == [] {
      assert u + w == u;
    } else {
      assert (u + w)[..|u + w| - 1] == u + w[..|w| - 1];
      FollowAppend(ev, u, w[..|w| - 1], secret);
    }
  }

  lemma {:induction false} WalkAppend(u: seq<Edge>, w: seq<Edge>, service: string, a: string, b: string, c: string)
    requires Walk(u, service, a, b) && Walk(w, service, b, c)
    ensures Walk(u + w, service, a, c)
  {
    if w == [] {
      assert u + w == u;
    } else {
      assert (u + w)[..|u + w| - 1] == u + w[..|w| - 1];
      WalkAppend(u, w[..|w| - 1], service, a, b, w[|w| - 1].source);
    }
  }

  /** One pass walks an event along edges of the queue, and moves it unless no edge leaves its target. */
  lemma {:induction false} PassWalks(ev: Event, edges: seq<Edge>, secret: nat) returns (w: seq<Edge>)
    ensures Pass(ev, edges, secret) == Follow(ev, w, secret) && Over(w, edges)
    ensures Walk(w, ev.subject.service, ev.subject.target, Pass(ev, edges, secret).subject.target)
    ensures w == [] <==> Stuck(ev, edges)
  {
    if edges == [] {
      w := [];
    } else {
      var last := edges[|edges| - 1];
      var init := edges[..|edges| - 1];
      var u := PassWalks(ev, init, secret);
      var mid := Pass(ev, init, secret);
      FollowKeeps(ev, u, secret);
      assert Stuck(ev, edges) <==> Stuck(ev, init) && !AtSource(ev, last);
      w := if AtSource(mid, last) then u + [last] else u;
      assert (u + [last])[..|u|] == u;
      assert Over(w, edges) by {
        forall i | 0 <= i < |w| ensures w[i] in edges {
          if i < |u| { assert u[i] in init; }
        }
      }
    }
  }

  /** After n passes an event has walked at least n edges, unless it got stuck. */
  lemma {:induction false} PassesWalk(ev: Event, edges: seq<Edge>, n: nat, secret: nat) returns (w: seq<Edge>)
    ensures Passes(ev, edges, n, secret) == Follow(ev, w, secret) && Over(w, edges)
    ensures Walk(w, ev.subject.service, ev.subject.target, Passes(ev, edges, n, secret).subject.target)
    ensures |w| >= n || Stuck(Passes(ev, edges, n, secret), edges)
  {
    if n == 0 {
      w := [];
    } else {
      var u := PassesWalk(ev, edges, n - 1, secret);
      var mid := Passes(ev, edges, n - 1, secret);
      var v := PassWalks(mid, edges, secret);
      FollowKeeps(ev, u, secret);
      FollowAppend(ev, u, v, secret);
      WalkAppend(u, v, ev.subject.service, ev.subject.target, mid.subject.target,
        Pass(mid, edges, secret).subject.target);
      w := u + v;
      if v == [] { assert Pass(mid, edges, secret) == mid; }
    }
  }

  lemma WalkEnd(w: seq<Edge>, service: string, a: string, b: string)
    requires w != [] && Walk(w, service, a, b)
    ensures w[|w| - 1].dest == b
  {
  }

  /** A part of a walk is a walk between the nodes at its ends. */
  lemma {:induction false} WalkSlice(w: seq<Edge>, i: nat, j: nat, service: string, a: string, b: string)
    requires Walk(w, service, a, b) && i < j <= |w|
    ensures Walk(w[i..j], service, w[i].source, w[j - 1].dest)
  {
    var k := |w| - 1;
    if j == |w| {
      assert w[i..j][..j - i - 1] == w[i..j - 1];
      if i < k {
        assert w[..k][i..k] == w[i..k];
        WalkSlice(w[..k], i, k, service, a, w[k].source);
        WalkEnd(w[..k], service, a, w[k].source);
      } else {
        assert w[i..j] == [w[k]];
      }
    } else {
      assert w[..k][i..j] == w[i..j];
      WalkSlice(w[..k], i, j, service, a, w[k].source);
    }
  }

  /** Between two uses of the same edge a walk comes back to where it was. */
  lemma RepeatIsLoop(w: seq<Edge>, i: nat, j: nat, service: string, a: string, b: string)
    requires Walk(w, service, a, b) && i < j < |w| && w[i] == w[j]
    ensures Walk(w[i..j], service, w[i].source, w[i].source)
  {
    WalkSlice(w, i, j, service, a, b);
    WalkSlice(w, j - 1, j + 1, service, a, b);
    assert w[j - 1..j + 1][..1] == [w[j - 1]];
    assert w[j - 1..j + 1][1] == w[j];
  }

  lemma {:induction false} DistinctFits<T>(w: seq<T>, pool: seq<T>)
    requires forall i, j | 0 <= i < j < |w| :: w[i] != w[j]
    requires forall i | 0 <= i < |w| :: w[i] in pool
    ensures |w| <= |pool|
  {
    if w != [] {
      var x := w[0];
      var k :| 0 <= k < |pool| && pool[k] == x;
      var rest := pool[..k] + pool[k + 1..];
      forall i | 0 <= i < |w[1..]| ensures w[1..][i] in rest {
        var m :| 0 <= m < |pool| && pool[m] == w[i + 1];
        assert rest[if m < k then m else m - 1] == w[i + 1];
      }
      DistinctFits(w[1..], rest);
    }
  }

  /** In an acyclic queue no walk uses an edge twice, so none is longer than the queue. */
  lemma WalkIsShort(w: seq<Edge>, edges: seq<Edge>, service: string, a: string, b: string)
    requires Acyclic(edges) && Walk(w, service, a, b) && Over(w, edges)
    ensures |w| <= |edges|
  {
    forall i, j | 0 <= i < j < |w| ensures w[i] != w[j] {
      if w[i] == w[j] {
        assert forall k | 0 <= k < j - i :: w[i..j][k] == w[i + k];
        RepeatIsLoop(w, i, j, service, a, b);
      }
    }
    DistinctFits(w, edges);
  }

  /** In an acyclic queue, |edges| passes bring every event to a node without outgoing edge that is
      reachable from where it started. */
  lemma PassesSettle(ev: Event, edges: seq<Edge>, n: nat, secret: nat) returns (w: seq<Edge>)
    requires Acyclic(edges) && n >= |edges|
    ensures Stuck(Passes(ev, edges, n, secret), edges)
    ensures Passes(ev, edges, n, secret) == Follow(ev, w, secret) && Over(w, edges)
    ensures Walk(w, ev.subject.service, ev.subject.target, Passes(ev, edges, n, secret).subject.target)
  {
    w := PassesWalk(ev, edges, n, secret);
    var end := Passes(ev, edges, n, secret);
    if !Stuck(end, edges) {
      var step := PassWalks(end, edges, secret);
      FollowKeeps(ev, w, secret);
      WalkAppend(w, step, ev.subject.service, ev.subject.target, end.subject.target,
        Pass(end, edges, secret).subject.target);
      WalkIsShort(w + step, edges, ev.subject.service, ev.subject.target, Pass(end, edges, secret).subject.target);
    }
  }
}
