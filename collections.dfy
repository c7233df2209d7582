/** The list operations the sketches take from JavaScript arrays (`flat()`,
    `findIndex`) and the `{start, end}` edge records both sketches store. */
module Collections {

  /** An edge between two points of one point list, by index: `{ start, end }`. */
  datatype Edge = Edge(start: nat, end: nat)

  /** No ordered (start, end) pair occurs twice; `(a, b)` and `(b, a)` are different pairs. */
  predicate DistinctPairs(edges: seq<Edge>) {
    forall i, j :: 0 <= i < j < |edges| ==> edges[i] != edges[j]
  }

  /** `Array.prototype.flat()` on a list of lists: the inner lists concatenated in order. */
  function Flatten<T>(ss: seq<seq<T>>): seq<T>
    decreases |ss|
  {
    if ss == [] then [] else Flatten(ss[..|ss| - 1]) + ss[|ss| - 1]
  }

  /** Flattening one more list appends it. */
  lemma FlattenSnoc<T>(ss: seq<seq<T>>, k: nat)
    requires k < |ss|
    ensures Flatten(ss[..k + 1]) == Flatten(ss[..k]) + ss[k]
  {
    assert ss[..k + 1][..k] == ss[..k];
  }

  /** A prefix of the lists flattens to no more elements than all of them. */
  lemma {:induction false} FlattenPrefixLength<T>(ss: seq<seq<T>>, k: nat)
    requires k <= |ss|
    ensures |Flatten(ss[..k])| <= |Flatten(ss)|
    decreases |ss| - k
  {
    if k < |ss| {
      FlattenSnoc(ss, k);
      FlattenPrefixLength(ss, k + 1);
      assert ss[..|ss|] == ss;
    } else {
      assert ss[..k] == ss;
    }
  }

  /** Cluster-then-index order: element `j` of list `c` sits in the flattened list right after
      everything in the lists before `c`. */
  lemma {:induction false} FlattenIndex<T>(ss: seq<seq<T>>, c: nat, j: nat)
    requires c < |ss| && j < |ss[c]|
    ensures |Flatten(ss[..c])| + j < |Flatten(ss)|
    ensures Flatten(ss)[|Flatten(ss[..c])| + j] == ss[c][j]
    decreases |ss|
  {
    var n := |ss| - 1;
    if c == n {
      assert ss[..|ss|-1] == ss[..c];
    } else {
      FlattenIndex(ss[..n], c, j);
      assert ss[..n][..c] == ss[..c];
    }
  }

  /** A property of every element of every list holds of every element of the flattened list. */
  lemma {:induction false} FlattenAll<T>(ss: seq<seq<T>>, p: T -> bool)
    requires forall c, j :: 0 <= c < |ss| && 0 <= j < |ss[c]| ==> p(ss[c][j])
    ensures forall m :: 0 <= m < |Flatten(ss)| ==> p(Flatten(ss)[m])
    decreases |ss|
  {
    if ss != [] {
      var n := |ss| - 1;
      FlattenAll(ss[..n], p);
      assert Flatten(ss) == Flatten(ss[..n]) + ss[n];
    }
  }

  /** A slice of a concatenation that lies within one of its parts is a slice of that part. */
  lemma SliceOfConcat<T>(a: seq<T>, b: seq<T>, lo: nat, hi: nat)
    requires lo <= hi <= |a| + |b|
    ensures hi <= |a| ==> (a + b)[lo..hi] == a[lo..hi]
    ensures lo == |a| && hi == |a| + |b| ==> (a + b)[lo..hi] == b
  {
  }

  /** Two lists with the same elements and the same head have the same elements after it. */
  lemma MultisetTail<T>(s: seq<T>, t: seq<T>)
    requires s != [] && t != [] && s[0] == t[0] && multiset(s) == multiset(t)
    ensures multiset(s[1..]) == multiset(t[1..])
  {
    assert s == [s[0]] + s[1..] && t == [t[0]] + t[1..];
    assert multiset(s[1..]) == multiset(s) - multiset{s[0]};
    assert multiset(t[1..]) == multiset(t) - multiset{t[0]};
  }

  /** An element missing from a list's multiset is missing from the list. */
  lemma NotInMultiset<T>(s: seq<T>, m: multiset<T>, x: T)
    requires multiset(s) == m && x !in m
    ensures x !in s
  {
  }

  /** Concatenation regroups, and appending nothing changes nothing. */
  lemma AppendAssoc<T>(a: seq<T>, b: seq<T>, c: seq<T>)
    ensures (a + b) + c == a + (b + c)
    ensures a + [] == a
  {
  }

  /** A slice within a prefix of `b` is the same slice of `b`. */
  lemma PrefixSlice<T>(a: seq<T>, b: seq<T>, lo: nat, hi: nat)
    requires a <= b && lo <= hi <= |a|
    ensures b[lo..hi] == a[lo..hi]
  {
  }

  /** `Array.prototype.findIndex`: the index of the first element that matches, or -1 if none does. */
  function FindIndex<T>(s: seq<T>, matches: T -> bool): (r: int)
    ensures -1 <= r < |s|
    ensures r == -1 <==> forall i :: 0 <= i < |s| ==> !matches(s[i])
    ensures r >= 0 ==> matches(s[r]) && forall i :: 0 <= i < r ==> !matches(s[i])
    decreases |s|
  {
    if s == [] then -1
    else if matches(s[0]) then 0
    else
      var k := FindIndex(s[1..], matches);
      if k == -1 then -1 else k + 1
  }

  /** The loop `if (findIndex(...) === -1) push(x)` over a list of candidates, in
      order: each candidate is kept unless an equal one was kept before it. The
      result holds exactly the candidates' values, each once. */
  function Dedup<T(==)>(s: seq<T>): (r: seq<T>)
    ensures |r| <= |s| && (s != [] ==> r != [])
    ensures forall i :: 0 <= i < |s| ==> s[i] in r
    ensures forall i :: 0 <= i < |r| ==> r[i] in s
    ensures forall i, j :: 0 <= i < j < |r| ==> r[i] != r[j]
    decreases |s|
  {
    if s == [] then []
    else
      var d := Dedup(s[..|s| - 1]);
      assert s == s[..|s| - 1] + [s[|s| - 1]];
      if s[|s| - 1] in d then d else d + [s[|s| - 1]]
  }

  /** Deduplicating one more candidate keeps it exactly when it is new. */
  lemma DedupSnoc<T>(s: seq<T>, x: T)
    ensures Dedup(s + [x]) == if x in Dedup(s) then Dedup(s) else Dedup(s) + [x]
  {
    assert (s + [x])[..|s|] == s;
  }

  /** `findIndex` with a test that holds of `x` and of nothing else finds nothing exactly
      when `x` is not in the list. */
  lemma FindIndexEqual<T>(s: seq<T>, matches: T -> bool, x: T)
    requires forall y :: matches(y) <==> y == x
    ensures FindIndex(s, matches) == -1 <==> x !in s
  {
    if x in s {
      var k :| 0 <= k < |s| && s[k] == x;
      assert matches(s[k]);
    }
  }

  /** `[0, 1, ..., n - 1]`. */
  function Range(n: nat): (r: seq<nat>)
    ensures |r| == n && forall i :: 0 <= i < n ==> r[i] == i
    decreases n
  {
    if n == 0 then [] else Range(n - 1) + [n - 1]
  }

  /** `[0, ..., n]` holds `n` once more than `[0, ..., n - 1]`, which does not hold it. */
  lemma RangeSnoc(n: nat)
    ensures n !in multiset(Range(n))
    ensures multiset(Range(n + 1)) == multiset(Range(n)) + multiset{n}
  {
    var r := Range(n);
    assert forall i :: 0 <= i < |r| ==> r[i] != n;
    assert Range(n + 1) == r + [n];
  }
}
