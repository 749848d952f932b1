/** What a rename makes of a dedupe key: the key is cut wherever the old route occurs, and the pieces are
    joined again with the new one. */
module RouteKeys {
  import opened RouteMoves

  function Join(pieces: seq<string>, sep: string): string
    requires pieces != []
  {
    if |pieces| == 1 then pieces[0] else pieces[0] + sep + Join(pieces[1..], sep)
  }

  predicate OccursAt(text: string, p: string, k: int) {
    0 <= k <= |text| - |p| && text[k..k + |p|] == p
  }

  predicate Occurs(text: string, p: string) {
    exists k | 0 <= k <= |text| :: OccursAt(text, p, k)
  }

  /** Every letter on its own, and the empty end. */
  function Letters(text: string): seq<string> {
    if text == "" then [""] else [[text[0]]] + Letters(text[1..])
  }

  /** A scan from left to right for p cuts text into these pieces; the empty text is found around each letter. */
  predicate Cuts(text: string, p: string, pieces: seq<string>) {
    if p == "" then pieces == [""] + Letters(text)
    else
      && pieces != [] && text == Join(pieces, p)
      && (forall i, k | 0 <= i < |pieces| - 1 && 0 <= k < |pieces[i]| :: !OccursAt(pieces[i] + p, p, k))
      && !Occurs(pieces[|pieces| - 1], p)
  }

  // ---- Replacing is cutting and joining ----

  lemma OccursLater(text: string, p: string, k: nat)
    requires text != ""
    ensures OccursAt(text[1..], p, k) <==> OccursAt(text, p, k + 1)
  {
    if k <= |text| - 1 - |p| { assert text[1..][k..k + |p|] == text[k + 1..k + 1 + |p|]; }
  }

  lemma ReplaceStep(text: string, from: string, to: string)
    requires from != "" && text != "" && !OccursAt(text, from, 0)
    ensures ReplaceAll(text, from, to) == [text[0]] + ReplaceAll(text[1..], from, to)
  {
    if |text| < |from| {
      assert text == [text[0]] + text[1..];
    } else {
      assert text[0..|from|] == text[..|from|];
    }
  }

  /** No occurrence in head + tail begins in head. */
  predicate NoneBegins(head: string, tail: string, from: string) {
    head == "" || (!OccursAt(head + tail, from, 0) && NoneBegins(head[1..], tail, from))
  }

  lemma {:induction false} NoneBeginsAt(head: string, tail: string, from: string)
    requires forall k | 0 <= k < |head| :: !OccursAt(head + tail, from, k)
    ensures NoneBegins(head, tail, from)
  {
    if head != "" {
      var rest := head[1..];
      assert (head + tail)[1..] == rest + tail;
      forall k | 0 <= k < |rest| ensures !OccursAt(rest + tail, from, k) { OccursLater(head + tail, from, k); }
      NoneBeginsAt(rest, tail, from);
    }
  }

  lemma SkipOne(head: string, tail: string, from: string, to: string)
    requires from != "" && head != "" && !OccursAt(head + tail, from, 0)
    ensures ReplaceAll(head + tail, from, to) == [head[0]] + ReplaceAll(head[1..] + tail, from, to)
  {
    assert (head + tail)[1..] == head[1..] + tail;
    ReplaceStep(head + tail, from, to);
  }

  lemma Regroup(head: string, tail: string)
    requires head != ""
    ensures [head[0]] + (head[1..] + tail) == head + tail
  {
  }

  lemma {:induction false} SkipOver(head: string, tail: string, from: string, to: string)
    requires from != "" && NoneBegins(head, tail, from)
    ensures ReplaceAll(head + tail, from, to) == head + ReplaceAll(tail, from, to)
  {
    if head == "" {
      assert head + tail == tail;
    } else {
      SkipOne(head, tail, from, to);
      SkipOver(head[1..], tail, from, to);
      Regroup(head, ReplaceAll(tail, from, to));
    }
  }

  lemma ReplaceNothing(text: string, from: string, to: string)
    requires from != "" && !Occurs(text, from)
    ensures ReplaceAll(text, from, to) == text
  {
    assert text + "" == text;
    NoneBeginsAt(text, "", from);
    SkipOver(text, "", from, to);
  }

  lemma Associates(a: string, b: string, c: string)
    ensures a + b + c == a + (b + c)
  {
  }

  lemma OccursInFront(text: string, more: string, p: string, k: nat)
    requires k + |p| <= |text|
    ensures OccursAt(text + more, p, k) <==> OccursAt(text, p, k)
  {
    assert (text + more)[k..k + |p|] == text[k..k + |p|];
  }

  lemma NoneBeginsBefore(head: string, from: string, rest: string)
    requires forall k | 0 <= k < |head| :: !OccursAt(head + from, from, k)
    ensures NoneBegins(head, from + rest, from)
  {
    Associates(head, from, rest);
    forall k | 0 <= k < |head| ensures !OccursAt(head + (from + rest), from, k) {
      OccursInFront(head + from, rest, from, k);
    }
    NoneBeginsAt(head, from + rest, from);
  }

  lemma ReplaceHere(from: string, rest: string, to: string)
    requires from != ""
    ensures ReplaceAll(from + rest, from, to) == to + ReplaceAll(rest, from, to)
  {
    assert (from + rest)[|from|..] == rest;
  }

  lemma ReplaceFirst(head: string, from: string, rest: string, to: string)
    requires from != "" && forall k | 0 <= k < |head| :: !OccursAt(head + from, from, k)
    ensures ReplaceAll(head + from + rest, from, to) == head + to + ReplaceAll(rest, from, to)
  {
    NoneBeginsBefore(head, from, rest);
    Associates(head, from, rest);
    SkipOver(head, from + rest, from, to);
    ReplaceHere(from, rest, to);
    Associates(head, to, ReplaceAll(rest, from, to));
  }

  lemma {:induction false} ReplaceAround(text: string, to: string)
    ensures ReplaceAll(text, "", to) == to + Join(Letters(text), to)
  {
    if text != "" { ReplaceAround(text[1..], to); }
  }

  lemma {:induction false} ReplaceIsJoin(text: string, from: string, to: string, pieces: seq<string>)
    requires Cuts(text, from, pieces)
    ensures ReplaceAll(text, from, to) == Join(pieces, to)
    decreases |pieces|
  {
    if from == "" {
      ReplaceAround(text, to);
      assert pieces[1..] == Letters(text);
    } else if |pieces| == 1 {
      ReplaceNothing(text, from, to);
    } else {
      var rest := pieces[1..];
      assert forall i, k | 0 <= i < |rest| - 1 && 0 <= k < |rest[i]| ::
        OccursAt(rest[i] + from, from, k) == OccursAt(pieces[i + 1] + from, from, k);
      ReplaceIsJoin(Join(rest, from), from, to, rest);
      ReplaceFirst(pieces[0], from, Join(rest, from), to);
    }
  }

  lemma {:induction false} FirstOccurrence(text: string, p: string, k: nat) returns (first: nat)
    requires OccursAt(text, p, k)
    ensures OccursAt(text, p, first) && forall i | 0 <= i < first :: !OccursAt(text, p, i)
  {
    if i :| 0 <= i < k && OccursAt(text, p, i) { first := FirstOccurrence(text, p, i); } else { first := k; }
  }

  /** Every text can be cut. */
  lemma {:induction false} CutsExist(text: string, p: string) returns (pieces: seq<string>)
    ensures Cuts(text, p, pieces)
    decreases |text|
  {
    if p == "" {
      pieces := [""] + Letters(text);
    } else if !Occurs(text, p) {
      pieces := [text];
    } else {
      var j :| 0 <= j <= |text| && OccursAt(text, p, j);
      var k := FirstOccurrence(text, p, j);
      var (head, rest) := (text[..k], text[k + |p|..]);
      var tail := CutsExist(rest, p);
      pieces := [head] + tail;
      assert pieces[1..] == tail && text == head + p + rest;
      forall i | 0 <= i < k ensures !OccursAt(head + p, p, i) {
        OccursInFront(head + p, rest, p, i);
      }
      forall i, j | 0 <= i < |pieces| - 1 && 0 <= j < |pieces[i]| ensures !OccursAt(pieces[i] + p, p, j) {
        if i > 0 { assert pieces[i] == tail[i - 1]; }
      }
    }
  }

  // ---- The key of a renamed event ----

  const ROUTES := "routes: "

  /** route is target without the prefix that route targets carry. */
  predicate BareRoute(target: string, route: string) {
    target == ROUTES + route || (route == target && !OccursAt(target, ROUTES, 0))
  }

  /** Every occurrence of the full target becomes the new one; in a key without any, every occurrence of the
      bare route becomes the bare new one. */
  ghost predicate Rekeyed(key: string, n: string, edge: Edge) {
    && (forall pieces | Cuts(key, edge.source, pieces) && |pieces| > 1 :: n == Join(pieces, edge.dest))
    && (Cuts(key, edge.source, [key]) ==>
      forall pieces, from, to |
        BareRoute(edge.source, from) && BareRoute(edge.dest, to) && Cuts(key, from, pieces) :: n == Join(pieces, to))
  }

  lemma {:induction false} ReplaceSame(text: string, p: string)
    ensures ReplaceAll(text, p, p) == text
    decreases |text|
  {
    if p == "" {
      if text != "" { ReplaceSame(text[1..], p); }
    } else if |p| <= |text| {
      if p <= text {
        ReplaceSame(text[|p|..], p);
        assert text == p + text[|p|..];
      } else {
        ReplaceSame(text[1..], p);
      }
    }
  }

  lemma {:induction false} JoinLonger(pieces: seq<string>, a: string, b: string)
    requires pieces != [] && |a| < |b|
    ensures |Join(pieces, a)| <= |Join(pieces, b)| && (|pieces| > 1 ==> |Join(pieces, a)| < |Join(pieces, b)|)
  {
    if |pieces| > 1 { JoinLonger(pieces[1..], a, b); }
  }

  lemma JoinDiffers(pieces: seq<string>, a: string, b: string)
    requires |pieces| > 1 && a != b
    ensures Join(pieces, a) != Join(pieces, b)
  {
    if |a| < |b| {
      JoinLonger(pieces, a, b);
    } else if |b| < |a| {
      JoinLonger(pieces, b, a);
    } else {
      var n := |pieces[0]|;
      assert Join(pieces, a)[n..n + |a|] == a && Join(pieces, b)[n..n + |b|] == b;
    }
  }

  lemma CutsRejoin(text: string, p: string, pieces: seq<string>)
    requires Cuts(text, p, pieces)
    ensures Join(pieces, p) == text
  {
    ReplaceIsJoin(text, p, p, pieces);
    ReplaceSame(text, p);
  }

  lemma TrimIsBare(target: string, route: string)
    ensures BareRoute(target, route) <==> TrimPrefix(target, PREFIX) == route
  {
    assert PREFIX == ROUTES;
    if OccursAt(target, ROUTES, 0) {
      assert target[0..|ROUTES|] == target[..|ROUTES|] && target == ROUTES + target[|ROUTES|..];
    }
    if target == ROUTES + route { assert target[|ROUTES|..] == route && target[0..|ROUTES|] == ROUTES; }
  }

  /** The rename's two replacements give exactly that key. */
  lemma RenamesKey(key: string, edge: Edge)
    ensures Rekeyed(key, RenameKey(key, edge), edge)
  {
    forall pieces | Cuts(key, edge.source, pieces) && |pieces| > 1
      ensures RenameKey(key, edge) == Join(pieces, edge.dest)
    {
      ReplaceIsJoin(key, edge.source, edge.dest, pieces);
      CutsRejoin(key, edge.source, pieces);
      if edge.source == edge.dest {
        ReplaceSame(key, TrimPrefix(edge.source, PREFIX));
      } else {
        JoinDiffers(pieces, edge.source, edge.dest);
      }
    }
    if Cuts(key, edge.source, [key]) {
      ReplaceIsJoin(key, edge.source, edge.dest, [key]);
      forall pieces, from, to | BareRoute(edge.source, from) && BareRoute(edge.dest, to) && Cuts(key, from, pieces)
        ensures RenameKey(key, edge) == Join(pieces, to)
      {
        TrimIsBare(edge.source, from);
        TrimIsBare(edge.dest, to);
        ReplaceIsJoin(key, from, to, pieces);
      }
    }
  }

  /** Which leaves no choice. */
  lemma RekeyedOnce(key: string, m: string, n: string, edge: Edge)
    requires Rekeyed(key, m, edge) && Rekeyed(key, n, edge)
    ensures m == n
  {
    var pieces := CutsExist(key, edge.source);
    if |pieces| > 1 {
      assert m == Join(pieces, edge.dest) == n;
    } else {
      var (from, to) := (TrimPrefix(edge.source, PREFIX), TrimPrefix(edge.dest, PREFIX));
      TrimIsBare(edge.source, from);
      TrimIsBare(edge.dest, to);
      var parts := CutsExist(key, from);
      assert pieces == [key];
      assert m == Join(parts, to) == n;
    }
  }

  /** p occurs in pre + p + post in that one place only. */
  predicate OnlyThere(pre: string, p: string, post: string) {
    p != "" && forall k | 0 <= k <= |pre| + |post| && k != |pre| :: !OccursAt(pre + p + post, p, k)
  }

  lemma JoinTwo(pre: string, post: string, sep: string)
    ensures Join([pre, post], sep) == pre + sep + post
  {
    assert [pre, post][1..] == [post];
  }

  lemma CutsThere(pre: string, p: string, post: string)
    requires OnlyThere(pre, p, post)
    ensures Cuts(pre + p + post, p, [pre, post])
  {
    var (text, pieces) := (pre + p + post, [pre, post]);
    JoinTwo(pre, post, p);
    forall k | 0 <= k < |pre| ensures !OccursAt(pre + p, p, k) {
      OccursInFront(pre + p, post, p, k);
    }
    forall k | 0 <= k <= |post| ensures !OccursAt(post, p, k) {
      var j := |pre| + |p| + k;
      assert k <= |post| - |p| ==> !OccursAt(text, p, j) && text[j..j + |p|] == post[k..k + |p|];
    }
  }

  lemma CutsNowhere(text: string, p: string)
    requires p != "" && !Occurs(text, p)
    ensures Cuts(text, p, [text])
  {
  }

  /** A key that holds the old target once keeps all the rest of it. */
  lemma TargetInKey(pre: string, post: string, n: string, edge: Edge)
    requires OnlyThere(pre, edge.source, post) && Rekeyed(pre + edge.source + post, n, edge)
    ensures n == pre + edge.dest + post
  {
    CutsThere(pre, edge.source, post);
    JoinTwo(pre, post, edge.dest);
  }

  /** So does one that holds only the bare route, once. */
  lemma RouteInKey(pre: string, from: string, post: string, to: string, n: string, edge: Edge)
    requires edge.source == ROUTES + from && edge.dest == ROUTES + to && OnlyThere(pre, from, post)
    requires !Occurs(pre + from + post, edge.source) && Rekeyed(pre + from + post, n, edge)
    ensures n == pre + to + post
  {
    CutsThere(pre, from, post);
    JoinTwo(pre, post, to);
    CutsNowhere(pre + from + post, edge.source);
  }

  /** A key that holds neither stays as it is. */
  lemma NeitherInKey(key: string, from: string, n: string, edge: Edge)
    requires BareRoute(edge.source, from) && from != "" && !Occurs(key, edge.source) && !Occurs(key, from)
    requires Rekeyed(key, n, edge)
    ensures n == key
  {
    var to := TrimPrefix(edge.dest, PREFIX);
    TrimIsBare(edge.dest, to);
    CutsNowhere(key, edge.source);
    CutsNowhere(key, from);
    assert n == Join([key], to);
  }

  lemma CancelFront(pre: string, a: string, b: string)
    requires pre + a == pre + b
    ensures a == b
  {
    assert (pre + a)[|pre|..] == a && (pre + b)[|pre|..] == b;
  }

  lemma CancelBack(a: string, b: string, post: string)
    requires a + post == b + post
    ensures a == b
  {
    assert (a + post)[..|a|] == a && (b + post)[..|b|] == b;
  }

  /** Two keys that name the old target once, and are the same up to it or after it, stay different. */
  lemma KeysStayApart(pre: string, post: string, pre2: string, post2: string, n: string, n2: string, edge: Edge)
    requires OnlyThere(pre, edge.source, post) && OnlyThere(pre2, edge.source, post2)
    requires Rekeyed(pre + edge.source + post, n, edge) && Rekeyed(pre2 + edge.source + post2, n2, edge)
    requires (pre == pre2 && post != post2) || (pre != pre2 && post == post2)
    ensures n != n2
  {
    TargetInKey(pre, post, n, edge);
    TargetInKey(pre2, post2, n2, edge);
    if n == n2 {
      if pre == pre2 {
        CancelFront(pre + edge.dest, post, post2);
      } else {
        CancelBack(pre + edge.dest, pre2 + edge.dest, post);
        CancelBack(pre, pre2, edge.dest);
      }
    }
  }
}
