/** The random source shared by both particle sketches.

    `Math.random()` is modelled as a finite sequence of draws, each a real in
    [0, 1), consumed from the front in the order the source calls it. An
    operation that would call `Math.random()` more often than there are draws
    left reports `OutOfDraws` instead of a value. */
module Random {
  import opened Collections

  /** One value `Math.random()` can return. */
  predicate IsDraw(u: real) { 0.0 <= u < 1.0 }

  predicate AllDraws(s: seq<real>) { forall i :: 0 <= i < |s| ==> IsDraw(s[i]) }

  /** The outcome of an operation that consumes draws: its value and the draws
      it left over, or OutOfDraws when it needs more draws than it was given. */
  datatype Drawn<T> = Drawn(value: T, rest: seq<real>) | OutOfDraws

  /** `rest` is what is left of `draws` after some draws were consumed from the front. */
  predicate Suffix(rest: seq<real>, draws: seq<real>) {
    |rest| <= |draws| && rest == draws[|draws| - |rest|..]
  }

  lemma SuffixRefl(draws: seq<real>)
    ensures Suffix(draws, draws)
  {
  }

  lemma SuffixTail(rest: seq<real>, draws: seq<real>)
    requires Suffix(rest, draws) && rest != []
    ensures Suffix(rest[1..], draws)
  {
    assert rest[1..] == draws[|draws| - |rest| + 1..];
  }

  lemma SuffixDrop(rest: seq<real>, draws: seq<real>, k: nat)
    requires Suffix(rest, draws) && k <= |rest|
    ensures Suffix(rest[k..], draws)
  {
    assert rest[k..] == draws[|draws| - |rest| + k..];
  }

  lemma SuffixTrans(a: seq<real>, b: seq<real>, c: seq<real>)
    requires Suffix(a, b) && Suffix(b, c)
    ensures Suffix(a, c)
  {
    assert a == c[|c| - |b|..][|b| - |a|..];
  }

  /** Dropping `k` draws from the front leaves a suffix of draws. */
  lemma DropDraws(draws: seq<real>, k: nat)
    requires k <= |draws| && AllDraws(draws)
    ensures Suffix(draws[k..], draws) && AllDraws(draws[k..])
  {
  }

  lemma SuffixDraws(rest: seq<real>, draws: seq<real>)
    requires Suffix(rest, draws) && AllDraws(draws)
    ensures AllDraws(rest)
  {
    forall i | 0 <= i < |rest| ensures IsDraw(rest[i]) {
      assert rest[i] == draws[|draws| - |rest| + i];
    }
  }

  function Min(a: int, b: int): int { if a <= b then a else b }

  function Max(a: int, b: int): int { if a <= b then b else a }

  /** `Math.ceil`. */
  function Ceil(x: real): (r: int)
    ensures x <= r as real < x + 1.0
  {
    -((-x).Floor)
  }

  /** `Math.floor(u * n)` for a draw `u`: one of the integers between 0 and
      n - 1 when n is positive, and between n and 0 otherwise. */
  lemma FloorOfScaledDraw(u: real, n: int)
    ensures IsDraw(u) && n >= 1 ==> 0 <= (u * n as real).Floor <= n - 1
    ensures n == 0 ==> (u * n as real).Floor == 0
    ensures IsDraw(u) && n < 0 ==> n <= (u * n as real).Floor <= 0
  {
    var m := n as real;
    if !IsDraw(u) {
    } else if n >= 1 {
      assert 0.0 <= u * m by { assert 0.0 <= m; }
      assert u * m < m by { assert (1.0 - u) * m > 0.0; }
    } else if n < 0 {
      assert u * m <= 0.0 by { assert -m > 0.0; assert u * (-m) >= 0.0; }
      assert m < u * m by { assert (1.0 - u) * (-m) > 0.0; }
    }
  }

  /** `getRandomInt(min, max)` for the draw `u` that its `Math.random()` call
      returns: `Math.floor(u * (max' - min' + 1)) + min'` with min' = ceil(min)
      and max' = floor(max). For min' <= max' the value lies in [min', max'];
      when the range is empty it still returns an integer, between max' + 1 and
      min'. */
  function RandomInt(min: real, max: real, u: real): (r: int)
    ensures IsDraw(u) ==> Min(Ceil(min), max.Floor + 1) <= r <= Max(Ceil(min), max.Floor)
  {
    var lo := Ceil(min);
    var hi := max.Floor;
    FloorOfScaledDraw(u, hi - lo + 1);
    (u * (hi - lo + 1) as real).Floor + lo
  }

  /** For integer bounds min <= max, getRandomInt returns an integer in [min, max]. */
  lemma RandomIntInRange(min: int, max: int, u: real)
    requires min <= max && IsDraw(u)
    ensures min <= RandomInt(min as real, max as real, u) <= max
  {
    assert Ceil(min as real) == min;
    assert (max as real).Floor == max;
  }

  /** Every integer of a non-empty range is the value of getRandomInt for some draw. */
  lemma RandomIntCovers(min: real, max: real, k: int)
    requires Ceil(min) <= k <= max.Floor
    ensures exists u :: IsDraw(u) && RandomInt(min, max, u) == k
  {
    var lo, hi := Ceil(min), max.Floor;
    var n := (hi - lo + 1) as real;
    var u := (k - lo) as real / n;
    assert 0.0 <= u < 1.0 by {
      assert (k - lo) as real < n;
    }
    assert u * n == (k - lo) as real;
    assert ((k - lo) as real).Floor == k - lo;
    assert RandomInt(min, max, u) == k;
  }

  /** `k` is a value getRandomInt(0, max) can return, for max >= -1: an integer in
      [0, floor(max)], or 0 when floor(max) is -1. */
  predicate IndexDrawable(k: int, max: real) {
    0 <= k <= Max(0, max.Floor)
  }

  lemma IndexDraw(max: real, u: real)
    requires max >= -1.0 && IsDraw(u)
    ensures IndexDrawable(RandomInt(0.0, max, u), max)
  {
    assert Ceil(0.0) == 0;
  }

  /** The rejection loop `while (start === end) end = getRandomInt(0, max)`:
      an `end` that already differs from `start` is kept and no draw is made;
      otherwise `end` is drawn again, one draw at a time, until it differs. The
      loop never ends when 0 is the only value getRandomInt(0, max) can return
      and `start` is 0; with finitely many draws it then reports OutOfDraws. */
  function Redraw(start: int, end: int, max: real, draws: seq<real>): (r: Drawn<int>)
    requires AllDraws(draws) && max >= -1.0
    requires IndexDrawable(end, max)
    ensures r.Drawn? ==> r.value != start && IndexDrawable(r.value, max)
    ensures r.Drawn? ==> Suffix(r.rest, draws) && AllDraws(r.rest)
    ensures start != end ==> r == Drawn(end, draws)
    ensures max.Floor <= 0 && start == 0 ==> r.OutOfDraws?
    decreases |draws|
  {
    if start != end then Drawn(end, draws)
    else if draws == [] then OutOfDraws
    else
      IndexDraw(max, draws[0]);
      var r := Redraw(start, RandomInt(0.0, max, draws[0]), max, draws[1..]);
      if r.Drawn? then SuffixTrans(r.rest, draws[1..], draws); r else r
  }

  /** The loop runs out of draws exactly when `end` equals `start` and every
      draw it is given redraws `start` again. */
  lemma {:induction false} RedrawFails(start: int, end: int, max: real, draws: seq<real>)
    requires AllDraws(draws) && max >= -1.0
    requires IndexDrawable(end, max)
    ensures Redraw(start, end, max, draws).OutOfDraws? <==>
            start == end && forall i :: 0 <= i < |draws| ==> RandomInt(0.0, max, draws[i]) == start
    decreases |draws|
  {
    if start == end && draws != [] {
      IndexDraw(max, draws[0]);
      var e := RandomInt(0.0, max, draws[0]);
      RedrawFails(start, e, max, draws[1..]);
      if e == start {
        assert (forall i :: 0 <= i < |draws[1..]| ==> RandomInt(0.0, max, draws[1..][i]) == start) <==>
               (forall i :: 0 <= i < |draws| ==> RandomInt(0.0, max, draws[i]) == start) by {
          forall i | 0 < i < |draws| ensures draws[1..][i - 1] == draws[i] {}
        }
      }
    }
  }

  /** The redraw loop, written as the source writes it. */
  method RedrawEnd(start: int, end: int, max: real, draws: seq<real>) returns (r: Drawn<int>)
    requires AllDraws(draws) && max >= -1.0
    requires IndexDrawable(end, max)
    ensures r == Redraw(start, end, max, draws)
  {
    var e, rest := end, draws;
    while start == e
      invariant IndexDrawable(e, max) && AllDraws(rest)
      invariant Redraw(start, e, max, rest) == Redraw(start, end, max, draws)
      decreases |rest|
    {
      if rest == [] {
        return OutOfDraws;
      }
      IndexDraw(max, rest[0]);
      e := RandomInt(0.0, max, rest[0]);
      rest := rest[1..];
    }
    return Drawn(e, rest);
  }

  /** One candidate edge: `start = getRandomInt(0, startMax)`, then
      `end = getRandomInt(0, endMax)`, then the redraw loop on `end`. */
  function DrawEdge(startMax: real, endMax: real, draws: seq<real>): (r: Drawn<Edge>)
    requires AllDraws(draws) && startMax >= -1.0 && endMax >= -1.0
    ensures r.Drawn? ==> r.value.start != r.value.end
    ensures r.Drawn? ==> IndexDrawable(r.value.start, startMax) && IndexDrawable(r.value.end, endMax)
    ensures r.Drawn? ==> Suffix(r.rest, draws) && AllDraws(r.rest)
    ensures |draws| >= 2 && endMax.Floor <= 0 && RandomInt(0.0, startMax, draws[0]) == 0 ==> r.OutOfDraws?
  {
    if |draws| < 2 then OutOfDraws
    else
      IndexDraw(startMax, draws[0]);
      IndexDraw(endMax, draws[1]);
      DropDraws(draws, 2);
      var start := RandomInt(0.0, startMax, draws[0]);
      match Redraw(start, RandomInt(0.0, endMax, draws[1]), endMax, draws[2..])
      case OutOfDraws => OutOfDraws
      case Drawn(end, rest) =>
        SuffixTrans(rest, draws[2..], draws);
        Drawn(Edge(start, end), rest)
  }

  /** Every edge of `es` joins two different indices, each a value getRandomInt(0, max)
      can return for its own maximum. */
  predicate EdgesDrawable(es: seq<Edge>, startMax: real, endMax: real) {
    forall i :: 0 <= i < |es| ==>
      && es[i].start != es[i].end
      && IndexDrawable(es[i].start, startMax) && IndexDrawable(es[i].end, endMax)
  }

  lemma EdgesDrawableCons(e: Edge, es: seq<Edge>, startMax: real, endMax: real)
    requires e.start != e.end && IndexDrawable(e.start, startMax) && IndexDrawable(e.end, endMax)
    requires EdgesDrawable(es, startMax, endMax)
    ensures EdgesDrawable([e] + es, startMax, endMax)
  {
    var v := [e] + es;
    forall i | 0 < i < |v| ensures v[i] == es[i - 1] {}
  }

  /** `n` candidate edges drawn one after the other (none for n <= 0). */
  function DrawEdges(n: int, startMax: real, endMax: real, draws: seq<real>): (r: Drawn<seq<Edge>>)
    requires AllDraws(draws) && startMax >= -1.0 && endMax >= -1.0
    ensures r.Drawn? ==> |r.value| == Max(n, 0) && Suffix(r.rest, draws) && AllDraws(r.rest)
    ensures r.Drawn? ==> EdgesDrawable(r.value, startMax, endMax)
    decreases n
  {
    if n <= 0 then Drawn([], draws)
    else
      match DrawEdge(startMax, endMax, draws)
      case OutOfDraws => OutOfDraws
      case Drawn(e, rest) =>
        var tail := DrawEdges(n - 1, startMax, endMax, rest);
        if tail.Drawn? then
          SuffixTrans(tail.rest, rest, draws);
          EdgesDrawableCons(e, tail.value, startMax, endMax);
          Prepend([e], tail)
        else OutOfDraws
  }

  /** `n > 0` candidates are the first candidate followed by `n - 1` more. */
  lemma DrawEdgesStep(n: int, startMax: real, endMax: real, draws: seq<real>)
    requires n > 0 && AllDraws(draws) && startMax >= -1.0 && endMax >= -1.0
    ensures DrawEdges(n, startMax, endMax, draws) ==
      match DrawEdge(startMax, endMax, draws)
      case OutOfDraws => OutOfDraws
      case Drawn(e, rest) => Prepend([e], DrawEdges(n - 1, startMax, endMax, rest))
  {
  }

  /** The drawn outcome `d` with `pre` put in front of its value. */
  function Prepend<T>(pre: seq<T>, d: Drawn<seq<T>>): Drawn<seq<T>> {
    match d
    case OutOfDraws => OutOfDraws
    case Drawn(v, rest) => Drawn(pre + v, rest)
  }

  /** The elements of a drawn sequence with `x` put in front. */
  lemma PrependAt<T>(x: T, d: Drawn<seq<T>>, i: nat)
    requires d.Drawn? && i <= |d.value|
    ensures Prepend([x], d).Drawn? && |Prepend([x], d).value| == |d.value| + 1
    ensures Prepend([x], d).value[i] == if i == 0 then x else d.value[i - 1]
  {
  }

  /** Putting `b` and then `a` in front is putting `a + b` in front; putting
      `a` in front of nothing drawn gives `a`; putting nothing in front changes nothing. */
  lemma PrependPrepend<T>(a: seq<T>, b: seq<T>, d: Drawn<seq<T>>, rest: seq<real>)
    ensures Prepend(a, Prepend(b, d)) == Prepend(a + b, d)
    ensures Prepend(a, Drawn([], rest)) == Drawn(a, rest)
    ensures Prepend([], d) == d
  {
    AppendAssoc(a, [], []);
    if d.Drawn? {
      AppendAssoc(a, b, d.value);
      assert [] + d.value == d.value;
    }
  }

  /** The draws of one candidate edge, as the loops of `setStackLineIndices`,
      `setInterStackLineIndices` and `LinesBetweenPoints` make them. */
  method NextEdge(startMax: real, endMax: real, draws: seq<real>) returns (r: Drawn<Edge>)
    requires AllDraws(draws) && startMax >= -1.0 && endMax >= -1.0
    ensures r == DrawEdge(startMax, endMax, draws)
  {
    if |draws| < 2 {
      return OutOfDraws;
    }
    IndexDraw(startMax, draws[0]);
    IndexDraw(endMax, draws[1]);
    DropDraws(draws, 2);
    var start := RandomInt(0.0, startMax, draws[0]);
    var end := RandomInt(0.0, endMax, draws[1]);
    var redrawn := RedrawEnd(start, end, endMax, draws[2..]);
    if redrawn.OutOfDraws? {
      return OutOfDraws;
    }
    return Drawn(Edge(start, redrawn.value), redrawn.rest);
  }

  /** `count` edges drawn one after the other and pushed in order, as the edge loops of
      the point clouds do when they push without checking for repeats. */
  method NextEdges(count: int, startMax: real, endMax: real, draws: seq<real>) returns (r: Drawn<seq<Edge>>)
    requires AllDraws(draws) && startMax >= -1.0 && endMax >= -1.0
    ensures r == DrawEdges(count, startMax, endMax, draws)
  {
    var rest := draws;
    var lines: seq<Edge> := [];
    PrependPrepend([], [], DrawEdges(count, startMax, endMax, draws), draws);
    for i := 0 to Max(count, 0)
      invariant AllDraws(rest)
      invariant DrawEdges(count, startMax, endMax, draws) ==
        Prepend(lines, DrawEdges(count - i, startMax, endMax, rest))
    {
      DrawEdgesStep(count - i, startMax, endMax, rest);
      var next := NextEdge(startMax, endMax, rest);
      if next.OutOfDraws? {
        return OutOfDraws;
      }
      PrependPrepend(lines, [next.value], DrawEdges(count - i - 1, startMax, endMax, next.rest), rest);
      lines := lines + [next.value];
      rest := next.rest;
    }
    PrependPrepend(lines, [], OutOfDraws, rest);
    return Drawn(lines, rest);
  }

  /** One speed or velocity component, `-particleSpeed / 2 + Math.random() * particleSpeed`:
      for a positive speed it lies in [-speed/2, speed/2). */
  function SpeedComponent(u: real, particleSpeed: real): (r: real)
    ensures IsDraw(u) && particleSpeed > 0.0 ==> -particleSpeed / 2.0 <= r < particleSpeed / 2.0
  {
    ScaledDraw(u, particleSpeed);
    -particleSpeed / 2.0 + u * particleSpeed
  }

  /** A draw scaled by a positive length lies in [0, length). */
  lemma ScaledDraw(u: real, s: real)
    ensures IsDraw(u) && s > 0.0 ==> 0.0 <= u * s < s
  {
    if IsDraw(u) && s > 0.0 {
      assert (1.0 - u) * s > 0.0;
    }
  }
}
