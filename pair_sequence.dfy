/** The two correlation-history containers, through the interface the
    correlation processor uses: construction with a capacity (and a
    resolution), `append`, `reset` and `data`. A simple sequence keeps the
    last `maxLen` pairs in arrival order; a resolution-binned sequence keeps
    the samples it has accumulated since construction or the last reset. */
module PairSequences {

  /** One `(x, y)` sample: correlator value and figure of merit. */
  datatype Pair = Pair(x: real, y: real)

  datatype PairSequence =
    | Simple(maxLen: nat, pairs: seq<Pair>)
    | Binned(resolution: real, maxLen: nat, samples: seq<Pair>)

  /** The last `n` elements of `s` (all of `s` when it is shorter). */
  function Last<T>(s: seq<T>, n: nat): (r: seq<T>)
    ensures |r| == if |s| <= n then |s| else n
    ensures forall i :: 0 <= i < |r| ==> r[i] == s[|s| - |r| + i]
  {
    if |s| <= n then s else s[|s| - n..]
  }

  /** For a simple sequence: never more than `maxLen` pairs. */
  predicate Bounded(h: PairSequence) {
    h.Simple? ==> |h.pairs| <= h.maxLen
  }

  /** `SimplePairSequence(max_len=maxLen)`: empty. */
  function NewSimple(maxLen: nat): (r: PairSequence)
    ensures r.Simple? && r.maxLen == maxLen && r.pairs == [] && Bounded(r)
  {
    Simple(maxLen, [])
  }

  /** `OneWayAccuPairSequence(resolution, max_len=maxLen)`: empty. */
  function NewBinned(resolution: real, maxLen: nat): (r: PairSequence)
    ensures r.Binned? && r.resolution == resolution && r.maxLen == maxLen && r.samples == []
  {
    Binned(resolution, maxLen, [])
  }

  /** `append((x, y))`: a simple sequence evicts its oldest pair once it
      holds `maxLen`; a binned sequence accumulates the sample. The kind,
      the capacity and the resolution never change. */
  function Append(h: PairSequence, p: Pair): (r: PairSequence)
    ensures r.Simple? == h.Simple? && r.maxLen == h.maxLen
    ensures r.Binned? ==> r.resolution == h.resolution && r.samples == h.samples + [p]
    ensures r.Simple? ==> |r.pairs| == (if |h.pairs| < h.maxLen then |h.pairs| + 1 else h.maxLen)
    ensures r.Simple? && h.maxLen > 0 ==> r.pairs[|r.pairs| - 1] == p
    ensures Bounded(h) ==> Bounded(r)
  {
    match h
    case Simple(maxLen, pairs) => Simple(maxLen, Last(pairs + [p], maxLen))
    case Binned(resolution, maxLen, samples) => Binned(resolution, maxLen, samples + [p])
  }

  /** `reset()`: empty again, with the same kind, capacity and resolution. */
  function Reset(h: PairSequence): (r: PairSequence)
    ensures r.Simple? == h.Simple? && r.maxLen == h.maxLen && Bounded(r)
    ensures r.Simple? ==> r.pairs == []
    ensures r.Binned? ==> r.resolution == h.resolution && r.samples == []
  {
    match h
    case Simple(maxLen, _) => Simple(maxLen, [])
    case Binned(resolution, maxLen, _) => Binned(resolution, maxLen, [])
  }

  /** The x-values of a list of pairs, in order. */
  function Xs(ps: seq<Pair>): (r: seq<real>)
    ensures |r| == |ps|
    ensures forall i :: 0 <= i < |ps| ==> r[i] == ps[i].x
  {
    if ps == [] then [] else Xs(ps[..|ps| - 1]) + [ps[|ps| - 1].x]
  }

  /** The y-values of a list of pairs, in order. */
  function Ys(ps: seq<Pair>): (r: seq<real>)
    ensures |r| == |ps|
    ensures forall i :: 0 <= i < |ps| ==> r[i] == ps[i].y
  {
    if ps == [] then [] else Ys(ps[..|ps| - 1]) + [ps[|ps| - 1].y]
  }

  /** `data()` of a simple sequence: the x-values and the y-values, in
      insertion order. */
  function Data(h: PairSequence): (r: (seq<real>, seq<real>))
    requires h.Simple?
    ensures |r.0| == |r.1| == |h.pairs|
    ensures forall i :: 0 <= i < |h.pairs| ==> r.0[i] == h.pairs[i].x && r.1[i] == h.pairs[i].y
  {
    (Xs(h.pairs), Ys(h.pairs))
  }

  /** `append` of every pair of `ps`, in order. */
  function AppendAll(h: PairSequence, ps: seq<Pair>): PairSequence {
    if ps == [] then h else Append(AppendAll(h, ps[..|ps| - 1]), ps[|ps| - 1])
  }

  /** Keeping the last `n` elements is compatible with appending: the last
      `n` of a non-empty `s` are the last `n` of (the last `n` of its
      prefix, then its final element). */
  lemma LastSnoc<T>(s: seq<T>, n: nat)
    requires s != []
    ensures Last(Last(s[..|s| - 1], n) + [s[|s| - 1]], n) == Last(s, n)
  {
    var l := Last(s[..|s| - 1], n);
    var a := Last(l + [s[|s| - 1]], n);
    var b := Last(s, n);
    assert |a| == |b|;
    forall i | 0 <= i < |a| ensures a[i] == b[i] {
      if i < |a| - 1 {
        assert a[i] == (l + [s[|s| - 1]])[|l| + 1 - |a| + i];
      }
    }
  }

  /** After any appends to an empty simple sequence of capacity `c`, it
      holds exactly the last `min(n, c)` appended pairs, in order. */
  lemma {:induction false} SimpleKeepsLastPairs(c: nat, ps: seq<Pair>)
    ensures AppendAll(NewSimple(c), ps) == Simple(c, Last(ps, c))
  {
    if ps != [] {
      SimpleKeepsLastPairs(c, ps[..|ps| - 1]);
      LastSnoc(ps, c);
    }
  }

  /** A binned sequence accumulates every appended sample. */
  lemma {:induction false} BinnedKeepsEverySample(resolution: real, c: nat, ps: seq<Pair>)
    ensures AppendAll(NewBinned(resolution, c), ps) == Binned(resolution, c, ps)
  {
    if ps != [] {
      var init, x := ps[..|ps| - 1], ps[|ps| - 1];
      BinnedKeepsEverySample(resolution, c, init);
      assert init + [x] == ps;
      calc {
        AppendAll(NewBinned(resolution, c), ps);
        Append(AppendAll(NewBinned(resolution, c), init), x);
        Append(Binned(resolution, c, init), x);
      }
    }
  }

  /** Capacity 3 and four pairs `a, b, c, d`: `data()` gives the x- and
      y-values of `b, c, d`, the oldest pair having been evicted. */
  lemma CapacityThreeScenario(a: Pair, b: Pair, c: Pair, d: Pair)
    ensures var h := AppendAll(NewSimple(3), [a, b, c, d]);
      h.Simple? && Data(h) == ([b.x, c.x, d.x], [b.y, c.y, d.y])
  {
    var ps := [a, b, c, d];
    SimpleKeepsLastPairs(3, ps);
    assert Last(ps, 3) == [b, c, d];
    DataOfThree(3, b, c, d);
  }

  lemma DataOfThree(k: nat, p: Pair, q: Pair, r: Pair)
    ensures Data(Simple(k, [p, q, r])) == ([p.x, q.x, r.x], [p.y, q.y, r.y])
  {
    var d := Data(Simple(k, [p, q, r]));
    assert d.0 == [p.x, q.x, r.x];
    assert d.1 == [p.y, q.y, r.y];
  }
}
