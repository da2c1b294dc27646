/** Latency histograms: cumulative counts by bucket bound, their difference and their percentile. */
module Histograms {
  import opened Wrappers
  import opened Scores

  type Histogram = map<Score, real>

  function At(h: Histogram, key: Score): real {
    if key in h then h[key] else 0.0
  }

  /** `__sub__`: over the keys of both, a missing count being 0. */
  function Minus(a: Histogram, b: Histogram): Histogram {
    map key | key in a.Keys + b.Keys :: At(a, key) - At(b, key)
  }

  // ---- sorting the bounds ----

  ghost predicate Increasing(keys: seq<Score>) {
    forall i, j :: 0 <= i < j < |keys| ==> Below(keys[i], keys[j])
  }

  lemma {:induction false} HasGreatest(keys: set<Score>) returns (m: Score)
    requires keys != {}
    ensures m in keys && forall k :: k in keys ==> AtMost(k, m)
    decreases keys
  {
    var k :| k in keys;
    if keys == {k} {
      m := k;
    } else {
      var rest := HasGreatest(keys - {k});
      m := if AtMost(k, rest) then rest else k;
      assert forall x :: x in keys ==> x == k || x in keys - {k};
    }
  }

  function Greatest(keys: set<Score>): (m: Score)
    requires keys != {}
    ensures m in keys && forall k :: k in keys ==> AtMost(k, m)
  {
    assert exists m :: m in keys && forall k :: k in keys ==> AtMost(k, m) by {
      var m := HasGreatest(keys);
    }
    var m :| m in keys && forall k :: k in keys ==> AtMost(k, m);
    m
  }

  /** The bounds in increasing order, as `sorted` lists them. */
  function Sorted(keys: set<Score>): (r: seq<Score>)
    ensures Increasing(r)
    ensures forall k :: k in r <==> k in keys
    ensures |r| == |keys|
    decreases keys
  {
    if keys == {} then []
    else
      var m := Greatest(keys);
      Sorted(keys - {m}) + [m]
  }

  // ---- the percentile ----

  /** The count of the topmost bound. */
  function Total(h: Histogram): real
    requires h != map[]
  {
    h[Greatest(h.Keys)]
  }

  /** `b` is the least bound whose count is at least `needed`. */
  ghost predicate LeastReaching(h: Histogram, needed: real, b: Score) {
    && b in h && h[b] >= needed
    && forall k :: k in h && h[k] >= needed ==> AtMost(b, k)
  }

  /** In numbers: no smaller bound has a count of at least `needed`. */
  lemma LeastReachingInNumbers(h: Histogram, needed: real, b: Score)
    ensures LeastReaching(h, needed, b) <==>
              && b in h && h[b] >= needed
              && (forall x: real :: Fin(x) in h && h[Fin(x)] >= needed ==> b.Fin? && b.v <= x)
  {
    if b in h && h[b] >= needed && forall x: real :: Fin(x) in h && h[Fin(x)] >= needed ==> b.Fin? && b.v <= x {
      forall k | k in h && h[k] >= needed
        ensures AtMost(b, k)
      {
        assert k.Fin? ==> k == Fin(k.v);
      }
    }
  }

  ghost predicate NoneReaches(h: Histogram, needed: real) {
    forall k :: k in h ==> h[k] < needed
  }

  /** The first bucket, in increasing order, whose count is at least `needed`, with its rank. */
  ghost predicate PercentileIs(h: Histogram, needed: real, r: Option<(nat, Score)>) {
    match r
    case None => NoneReaches(h, needed)
    case Some(b) => LeastReaching(h, needed, b.1) && b.0 == |Under(h, b.1)|
  }

  /** `get_percentile`: the scan over the sorted buckets; `Err` is PercentileComputationError. */
  method GetPercentile(h: Histogram, p: real) returns (r: Result<Option<(nat, Score)>, ()>)
    ensures h == map[] ==> r == Ok(None)
    ensures h != map[] ==> (r.Ok? ==> r.value.Some?) && PercentileIs(h, p * Total(h), if r.Ok? then r.value else None)
  {
    if h == map[] {
      return Ok(None);
    }
    var total := TopCount(h);
    var needed := p * total;
    assert needed == p * Total(h);
    var found := Scan(h, needed);
    r := if found.None? then Err(()) else Ok(found);
  }

  /** The count of the last of the sorted buckets. */
  method TopCount(h: Histogram) returns (total: real)
    requires h != map[]
    ensures total == Total(h)
  {
    var buckets := Sorted(h.Keys);
    LastIsGreatest(h.Keys);
    total := h[buckets[|buckets| - 1]];
  }

  /** The bounds below `b`. */
  function Under(h: Histogram, b: Score): set<Score> {
    set k | k in h.Keys && Below(k, b)
  }

  /** `buckets` lists `keys` in increasing order. */
  ghost predicate Lists(buckets: seq<Score>, keys: set<Score>) {
    Increasing(buckets) && forall k :: k in buckets <==> k in keys
  }

  /** The sorted buckets and the first of them to reach `needed`. */
  method Scan(h: Histogram, needed: real) returns (r: Option<(nat, Score)>)
    ensures PercentileIs(h, needed, r)
  {
    var buckets := Sorted(h.Keys);
    var i := FirstReaching(h, buckets, needed);
    if i == |buckets| {
      NoBucketReaches(h, buckets, needed);
      return None;
    }
    FirstIsPercentile(h, needed, i);
    return Some((i, buckets[i]));
  }

  /** The loop of `get_percentile`. */
  method FirstReaching(h: Histogram, buckets: seq<Score>, needed: real) returns (i: nat)
    requires forall k :: k in buckets ==> k in h
    ensures i <= |buckets| && NoneBefore(h, buckets, needed, i)
    ensures i < |buckets| ==> h[buckets[i]] >= needed
  {
    for n := 0 to |buckets|
      invariant NoneBefore(h, buckets, needed, n)
    {
      if h[buckets[n]] >= needed {
        return n;
      }
    }
    return |buckets|;
  }

  ghost predicate NoneBefore(h: Histogram, buckets: seq<Score>, needed: real, i: nat) {
    forall j :: 0 <= j < i && j < |buckets| ==> buckets[j] in h && h[buckets[j]] < needed
  }

  lemma NoBucketReaches(h: Histogram, buckets: seq<Score>, needed: real)
    requires Lists(buckets, h.Keys) && NoneBefore(h, buckets, needed, |buckets|)
    ensures NoneReaches(h, needed)
  {
    forall k | k in h
      ensures h[k] < needed
    {
      assert k in buckets;
    }
  }

  lemma FirstIsPercentile(h: Histogram, needed: real, i: nat)
    requires i < |Sorted(h.Keys)| && NoneBefore(h, Sorted(h.Keys), needed, i)
    requires var b := Sorted(h.Keys)[i]; b in h && h[b] >= needed
    ensures PercentileIs(h, needed, Some((i, Sorted(h.Keys)[i])))
  {
    RankIsCount(h, i);
    FirstIsLeast(h, Sorted(h.Keys), needed, i);
  }

  /** The first bucket of the scan is the least by bound, whatever the order of the dictionary. */
  lemma FirstIsLeast(h: Histogram, buckets: seq<Score>, needed: real, i: nat)
    requires Lists(buckets, h.Keys) && i < |buckets| && buckets[i] in h && h[buckets[i]] >= needed
    requires NoneBefore(h, buckets, needed, i)
    ensures LeastReaching(h, needed, buckets[i])
  {
    forall k | k in h && h[k] >= needed
      ensures AtMost(buckets[i], k)
    {
      assert k in buckets;
      var j :| 0 <= j < |buckets| && buckets[j] == k;
    }
  }

  lemma LastIsGreatest(keys: set<Score>)
    requires keys != {}
    ensures Sorted(keys) != [] && Sorted(keys)[|Sorted(keys)| - 1] == Greatest(keys)
  {
  }

  /** The position of a bound in the sorted list counts the bounds below it. */
  lemma RankIsCount(h: Histogram, i: nat)
    requires i < |Sorted(h.Keys)|
    ensures i == |Under(h, Sorted(h.Keys)[i])|
  {
    UnderIsPrefix(h, Sorted(h.Keys), i);
    PrefixSize(Sorted(h.Keys), i);
  }

  function Prefix(r: seq<Score>, i: nat): set<Score>
    requires i <= |r|
  {
    set j | 0 <= j < i :: r[j]
  }

  lemma UnderIsPrefix(h: Histogram, r: seq<Score>, i: nat)
    requires Lists(r, h.Keys) && i < |r|
    ensures Under(h, r[i]) == Prefix(r, i)
  {
    forall k | k in Under(h, r[i])
      ensures k in Prefix(r, i)
    {
      assert k in r;
      var j :| 0 <= j < |r| && r[j] == k;
      assert j < i;
    }
    forall j | 0 <= j < i
      ensures r[j] in h.Keys && Below(r[j], r[i])
    {
      assert r[j] in r;
    }
  }

  lemma {:induction false} PrefixSize(r: seq<Score>, i: nat)
    requires Increasing(r) && i <= |r|
    ensures |Prefix(r, i)| == i
  {
    if i > 0 {
      PrefixSize(r, i - 1);
      PrefixGrows(r, i - 1);
    }
  }

  lemma PrefixGrows(r: seq<Score>, i: nat)
    requires Increasing(r) && i < |r|
    ensures r[i] !in Prefix(r, i) && Prefix(r, i + 1) == Prefix(r, i) + {r[i]}
  {
  }

  // ---- the score of a histogram ----

  const SHARE := 0.95

  /** The score the strategy derives from a histogram; `None` when the percentile raises. */
  ghost predicate ScoreIs(h: Histogram, r: Option<Score>) {
    if h == map[] then r == Some(NO_DATA)
    else if r.Some? then LeastReaching(h, SHARE * Total(h), r.value)
    else NoneReaches(h, SHARE * Total(h))
  }

  lemma ScoreIsUnique(h: Histogram, a: Option<Score>, b: Option<Score>)
    requires ScoreIs(h, a) && ScoreIs(h, b)
    ensures a == b
  {
    if h != map[] && a.Some? && b.Some? {
      assert AtMost(a.value, b.value) && AtMost(b.value, a.value);
    }
  }

  /** Every histogram has a score, or its percentile raises. */
  lemma SomeScore(h: Histogram) returns (r: Option<Score>)
    ensures ScoreIs(h, r)
  {
    if h == map[] {
      r := Some(NO_DATA);
    } else {
      var needed := SHARE * Total(h);
      var reaching := set k | k in h && h[k] >= needed;
      if reaching == {} {
        r := None;
        forall k | k in h
          ensures h[k] < needed
        {
          assert k !in reaching;
        }
      } else {
        var least := HasLeast(reaching);
        r := Some(least);
      }
    }
  }

  lemma {:induction false} HasLeast(keys: set<Score>) returns (m: Score)
    requires keys != {}
    ensures m in keys && forall k :: k in keys ==> AtMost(m, k)
    decreases keys
  {
    var k :| k in keys;
    if keys == {k} {
      m := k;
    } else {
      var rest := HasLeast(keys - {k});
      m := if AtMost(rest, k) then rest else k;
      assert forall x :: x in keys ==> x == k || x in keys - {k};
    }
  }

  /** Raising the share never lowers the bucket, whatever the counts, once the total is not negative. */
  lemma PercentileMonotone(h: Histogram, p: real, q: real, a: Score, b: Score)
    requires h != map[] && p <= q && Total(h) >= 0.0
    requires LeastReaching(h, p * Total(h), a) && LeastReaching(h, q * Total(h), b)
    ensures AtMost(a, b)
  {
    var low, high := Products(p, q, Total(h));
    HigherNeedsHigher(h, low, high, a, b);
  }

  lemma Products(p: real, q: real, total: real) returns (low: real, high: real)
    requires p <= q && total >= 0.0
    ensures low == p * total && high == q * total && low <= high
  {
    low, high := p * total, q * total;
    var more := q - p;
    ProductNotNegative(more, total);
    assert more * total == high - low;
  }

  lemma HigherNeedsHigher(h: Histogram, low: real, high: real, a: Score, b: Score)
    requires low <= high && LeastReaching(h, low, a) && LeastReaching(h, high, b)
    ensures AtMost(a, b)
  {
  }

  lemma ProductNotNegative(a: real, b: real)
    requires a >= 0.0 && b >= 0.0
    ensures a * b >= 0.0
  {
  }

  /** Counts that do not decrease with the bound and are not negative. */
  ghost predicate Cumulative(h: Histogram) {
    && (forall k :: k in h ==> h[k] >= 0.0)
    && (forall k, l :: k in h && l in h && AtMost(k, l) ==> h[k] <= h[l])
  }

  /**
    The percentile fails only if the total is negative and the share below 1. The
    converse needs that no count exceeds the total, which the difference of two
    cumulative histograms does not guarantee.
   */
  lemma PercentileFailsIff(h: Histogram, p: real)
    requires h != map[] && p <= 1.0
    ensures NoneReaches(h, p * Total(h)) ==> Total(h) < 0.0 && p < 1.0
    ensures (forall k :: k in h ==> h[k] <= Total(h)) ==> (NoneReaches(h, p * Total(h)) <==> Total(h) < 0.0 && p < 1.0)
  {
    var needed := ShareOfTotal(p, Total(h));
    FailsIffBelow(h, needed);
  }

  lemma FailsIffBelow(h: Histogram, needed: real)
    requires h != map[]
    ensures NoneReaches(h, needed) ==> needed > Total(h)
    ensures (forall k :: k in h ==> h[k] <= Total(h)) && needed > Total(h) ==> NoneReaches(h, needed)
  {
    if NoneReaches(h, needed) {
      assert h[Greatest(h.Keys)] < needed;
    }
  }

  lemma ShareOfTotal(p: real, total: real) returns (needed: real)
    requires p <= 1.0
    ensures needed == p * total
    ensures needed > total <==> total < 0.0 && p < 1.0
  {
    needed := p * total;
    var rest := 1.0 - p;
    assert rest * total == total - needed;
    if p < 1.0 {
      ProductSign(rest, total);
    }
  }

  lemma ProductSign(a: real, b: real)
    requires a > 0.0
    ensures b >= 0.0 ==> a * b >= 0.0
    ensures b < 0.0 ==> a * b < 0.0
  {
  }
}
