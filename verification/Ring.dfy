/**
  The ring of past snapshots of one server, as functions of the scrapes so far: what
  each slot holds, what the difference histogram holds, and what that says about the
  latencies observed in the window.
 */
module Ring {
  import opened Wrappers
  import opened Scores
  import opened Histograms

  /** One entry per scrape; `None` is an empty response, which moves the index but writes nothing. */
  type Scrapes = seq<Option<Histogram>>

  function Slot(log: Scrapes, w: nat, j: nat): Histogram
    requires w >= 1
  {
    if log == [] then map[]
    else
      var n := |log| - 1;
      var before := Slot(log[..n], w, j);
      if n % w == j && log[n].Some? then before + log[n].value else before
  }

  function Diff(log: Scrapes, w: nat): Histogram
    requires w >= 1
  {
    if log == [] then map[]
    else
      var n := |log| - 1;
      var before := Diff(log[..n], w);
      if log[n].Some? then before + Minus(log[n].value, Slot(log[..n], w, n % w)) else before
  }

  // ---- what a slot holds ----

  /** The latest scrape written at index `j`. */
  function LatestAt(log: Scrapes, w: nat, j: nat): Option<nat>
    requires w >= 1
  {
    if log == [] then None
    else
      var n := |log| - 1;
      if n % w == j && log[n].Some? then Some(n) else LatestAt(log[..n], w, j)
  }

  lemma {:induction false} LatestIsWritten(log: Scrapes, w: nat, j: nat)
    requires w >= 1
    ensures var m := LatestAt(log, w, j);
            && (m.Some? ==> m.value < |log| && m.value % w == j && log[m.value].Some?)
            && (forall i :: 0 <= i < |log| && i % w == j && log[i].Some? ==> m.Some? && i <= m.value)
  {
    if log != [] {
      var rest := log[..|log| - 1];
      LatestIsWritten(rest, w, j);
      assert forall i :: 0 <= i < |rest| ==> rest[i] == log[i];
    }
  }

  /** Whatever the keys do, a slot gives each key the value last written there. */
  lemma {:induction false} SlotHoldsLatestPerKey(log: Scrapes, w: nat, j: nat, key: Score)
    requires w >= 1
    ensures var m := LatestOfKey(log, w, j, key);
            && (m.None? ==> key !in Slot(log, w, j))
            && (m.Some? ==> WritesKey(log, w, j, key, m.value) && key in Slot(log, w, j))
            && (m.Some? ==> Slot(log, w, j)[key] == log[m.value].value[key])
  {
    if log != [] {
      SlotHoldsLatestPerKey(log[..|log| - 1], w, j, key);
    }
  }

  lemma {:induction false} LatestOfKeyIsLatest(log: Scrapes, w: nat, j: nat, key: Score, i: nat)
    requires w >= 1 && WritesKey(log, w, j, key, i)
    ensures var m := LatestOfKey(log, w, j, key); m.Some? && i <= m.value
  {
    var n := |log| - 1;
    if i < n {
      LatestOfKeyIsLatest(log[..n], w, j, key, i);
      SlotHoldsLatestPerKey(log, w, j, key);
    }
  }

  /** The latest scrape that wrote this key at index `j`. */
  function LatestOfKey(log: Scrapes, w: nat, j: nat, key: Score): Option<nat>
    requires w >= 1
  {
    if log == [] then None
    else
      var n := |log| - 1;
      if n % w == j && log[n].Some? && key in log[n].value then Some(n) else LatestOfKey(log[..n], w, j, key)
  }

  ghost predicate WritesKey(log: Scrapes, w: nat, j: nat, key: Score, i: nat)
    requires w >= 1
  {
    i < |log| && i % w == j && log[i].Some? && key in log[i].value
  }

  /** Later snapshots have all the keys of earlier ones. */
  ghost predicate KeysGrow(log: Scrapes) {
    forall i, k :: 0 <= i <= k < |log| && log[i].Some? && log[k].Some? ==> log[i].value.Keys <= log[k].value.Keys
  }

  lemma KeysGrowPrefix(log: Scrapes, n: nat)
    requires KeysGrow(log) && n <= |log|
    ensures KeysGrow(log[..n])
  {
  }

  /** If keys only grow, a slot is exactly the latest snapshot written there. */
  lemma {:induction false} SlotIsLatest(log: Scrapes, w: nat, j: nat)
    requires w >= 1 && KeysGrow(log)
    ensures var m := LatestAt(log, w, j);
            (m.Some? ==> m.value < |log| && log[m.value].Some?)
            && Slot(log, w, j) == if m.Some? then log[m.value].value else map[]
  {
    if log != [] {
      var n := |log| - 1;
      var rest := log[..n];
      KeysGrowPrefix(log, n);
      SlotIsLatest(rest, w, j);
    }
  }

  lemma {:induction false} DiffKeys(log: Scrapes, w: nat, keys: set<Score>)
    requires w >= 1 && KeysGrow(log)
    requires forall i :: 0 <= i < |log| && log[i].Some? ==> log[i].value.Keys <= keys
    ensures Diff(log, w).Keys <= keys
  {
    if log != [] {
      var n := |log| - 1;
      KeysGrowPrefix(log, n);
      DiffKeys(log[..n], w, keys);
      SlotIsLatest(log[..n], w, n % w);
    }
  }

  /** If keys only grow, the difference is exactly the newest snapshot minus the one it replaces. */
  lemma DiffIsDifference(log: Scrapes, w: nat)
    requires w >= 1 && KeysGrow(log) && log != [] && log[|log| - 1].Some?
    ensures var n := |log| - 1;
            var m := LatestAt(log[..n], w, n % w);
            (m.Some? ==> m.value < n && log[m.value].Some?)
            && Diff(log, w) == Minus(log[n].value, if m.Some? then log[m.value].value else map[])
  {
    var n := |log| - 1;
    KeysGrowPrefix(log, n);
    SlotIsLatest(log[..n], w, n % w);
    DiffKeys(log[..n], w, log[n].value.Keys);
  }

  /** How many scrapes there were up to the newest one that wrote. */
  function UpToWritten(log: Scrapes): (n: nat)
    ensures n <= |log| && (n > 0 ==> log[n - 1].Some?)
  {
    if log == [] then 0
    else if log[|log| - 1].Some? then |log|
    else UpToWritten(log[..|log| - 1])
  }

  /** Skips after the newest scrape that wrote do not matter to the difference. */
  lemma {:induction false} DiffUpToWritten(log: Scrapes, w: nat)
    requires w >= 1
    ensures Diff(log, w) == Diff(log[..UpToWritten(log)], w)
  {
    if log != [] && log[|log| - 1].None? {
      var rest := log[..|log| - 1];
      DiffUpToWritten(rest, w);
      assert rest[..UpToWritten(log)] == log[..UpToWritten(log)];
    } else {
      assert log[..|log|] == log;
    }
  }

  // ---- from observed latencies ----

  /** How many of the latencies are at most `b`. */
  function CountAtMost(lats: seq<real>, b: Score): nat {
    if lats == [] then 0
    else CountAtMost(lats[..|lats| - 1], b) + if AtMost(Fin(lats[|lats| - 1]), b) then 1 else 0
  }

  /** In numbers: how many of them are no larger. */
  lemma {:induction false} CountInNumbers(lats: seq<real>, x: real)
    ensures CountAtMost(lats, Fin(x)) == |set i | 0 <= i < |lats| && lats[i] <= x|
    ensures CountAtMost(lats, Inf) == |lats|
  {
    if lats != [] {
      var n := |lats| - 1;
      CountInNumbers(lats[..n], x);
      var before := set i | 0 <= i < n && lats[..n][i] <= x;
      var now := set i | 0 <= i < |lats| && lats[i] <= x;
      assert now == before + if lats[n] <= x then {n} else {};
    }
  }

  /** The cumulative histogram of the latencies on fixed bounds. */
  function Snapshot(lats: seq<real>, bounds: set<Score>): Histogram {
    map b | b in bounds :: CountAtMost(lats, b) as real
  }

  /** What the server exposes: no histogram at all before the first request. */
  function Exposed(lats: seq<real>, bounds: set<Score>): Histogram {
    if lats == [] then map[] else Snapshot(lats, bounds)
  }

  lemma {:induction false} CountAdds(a: seq<real>, b: seq<real>, bound: Score)
    ensures CountAtMost(a + b, bound) == CountAtMost(a, bound) + CountAtMost(b, bound)
  {
    if b == [] {
      assert a + b == a;
    } else {
      CountAdds(a, b[..|b| - 1], bound);
      assert (a + b)[..|a + b| - 1] == a + b[..|b| - 1];
    }
  }

  lemma {:induction false} CountAtTop(lats: seq<real>)
    ensures CountAtMost(lats, Inf) == |lats|
  {
    if lats != [] {
      CountAtTop(lats[..|lats| - 1]);
    }
  }

  lemma {:induction false} CountRises(lats: seq<real>, a: Score, b: Score)
    requires AtMost(a, b)
    ensures CountAtMost(lats, a) <= CountAtMost(lats, b)
  {
    if lats != [] {
      CountRises(lats[..|lats| - 1], a, b);
    }
  }

  /** Differences of cumulative snapshots are the snapshot of what came between, hence cumulative. */
  lemma DifferenceIsWindow(lats: seq<real>, from: nat, to: nat, bounds: set<Score>)
    requires from <= to <= |lats|
    ensures Minus(Snapshot(lats[..to], bounds), Snapshot(lats[..from], bounds)) == Snapshot(lats[from..to], bounds)
    ensures Minus(Snapshot(lats[..to], bounds), map[]) == Snapshot(lats[..to], bounds)
    ensures Cumulative(Snapshot(lats[from..to], bounds))
  {
    forall b | b in bounds
      ensures CountAtMost(lats[..to], b) == CountAtMost(lats[..from], b) + CountAtMost(lats[from..to], b)
    {
      assert lats[..to] == lats[..from] + lats[from..to];
      CountAdds(lats[..from], lats[from..to], b);
    }
    forall a, b | AtMost(a, b)
      ensures CountAtMost(lats[from..to], a) <= CountAtMost(lats[from..to], b)
    {
      CountRises(lats[from..to], a, b);
    }
  }

  /** The scrapes of one latency stream: scrape i saw the first `seen[i]` latencies, or was empty. */
  ghost predicate ScrapesOf(log: Scrapes, lats: seq<real>, seen: seq<nat>, bounds: set<Score>) {
    && |seen| == |log|
    && (forall i, k :: 0 <= i <= k < |seen| ==> seen[i] <= seen[k] <= |lats|)
    && (forall i :: 0 <= i < |log| && log[i].Some? ==> log[i].value == Exposed(lats[..seen[i]], bounds))
  }

  lemma ScrapesGrow(log: Scrapes, lats: seq<real>, seen: seq<nat>, bounds: set<Score>)
    requires ScrapesOf(log, lats, seen, bounds)
    ensures KeysGrow(log)
  {
    forall i, k | 0 <= i <= k < |log| && log[i].Some? && log[k].Some?
      ensures log[i].value.Keys <= log[k].value.Keys
    {
      assert seen[i] <= seen[k];
    }
  }

  /** Where the window of the newest scrape begins: at the scrape it overwrites, or at the beginning. */
  function WindowStart(log: Scrapes, seen: seq<nat>, w: nat): nat
    requires w >= 1 && log != [] && |seen| == |log|
  {
    var n := |log| - 1;
    LatestIsWritten(log[..n], w, n % w);
    match LatestAt(log[..n], w, n % w)
    case None => 0
    case Some(m) => seen[m]
  }

  /** The difference histogram is the histogram of the latencies in the window. */
  lemma DiffIsWindow(log: Scrapes, lats: seq<real>, seen: seq<nat>, bounds: set<Score>, w: nat)
    requires w >= 1 && log != [] && log[|log| - 1].Some? && ScrapesOf(log, lats, seen, bounds)
    ensures WindowStart(log, seen, w) <= seen[|log| - 1] <= |lats|
    ensures Diff(log, w) ==
            if seen[|log| - 1] == 0 then map[] else Snapshot(lats[WindowStart(log, seen, w)..seen[|log| - 1]], bounds)
  {
    var n := |log| - 1;
    ScrapesGrow(log, lats, seen, bounds);
    DiffIsDifference(log, w);
    LatestIsWritten(log[..n], w, n % w);
    var m := LatestAt(log[..n], w, n % w);
    var start := WindowStart(log, seen, w);
    assert seen[n] <= seen[n] <= |lats|;
    assert m.Some? ==> log[m.value].value == Exposed(lats[..seen[m.value]], bounds) && seen[m.value] <= seen[n];
    DifferenceIsWindow(lats, start, seen[n], bounds);
    if seen[n] == 0 {
      assert log[n].value == map[];
    } else {
      assert log[n].value == Snapshot(lats[..seen[n]], bounds);
      if start == 0 {
        assert lats[0..seen[n]] == lats[..seen[n]];
      }
    }
  }

  /** At least 19 in 20 of the latencies are at most `b`. */
  predicate MostAtMost(lats: seq<real>, b: Score) {
    20 * CountAtMost(lats, b) >= 19 * |lats|
  }

  /**
    End to end: the score read from the difference histogram is the least bucket bound
    that 95% of the latencies observed in the window do not exceed; it is the sentinel
    exactly when no latency has been observed at all; and the percentile never fails.
   */
  lemma WindowRefinement(
    log: Scrapes, lats: seq<real>, seen: seq<nat>, bounds: set<Score>, w: nat, score: Option<Score>
  )
    requires w >= 1 && log != [] && log[|log| - 1].Some? && ScrapesOf(log, lats, seen, bounds)
    requires Inf in bounds && NO_DATA !in bounds
    requires ScoreIs(Diff(log, w), score)
    ensures score.Some?
    ensures score == Some(NO_DATA) <==> seen[|log| - 1] == 0
    ensures WindowStart(log, seen, w) <= seen[|log| - 1] <= |lats|
    ensures var window := lats[WindowStart(log, seen, w)..seen[|log| - 1]];
            seen[|log| - 1] > 0 ==>
              && score.value in bounds && MostAtMost(window, score.value)
              && forall b :: b in bounds && MostAtMost(window, b) ==> AtMost(score.value, b)
  {
    DiffIsWindow(log, lats, seen, bounds, w);
    if seen[|log| - 1] > 0 {
      SnapshotScore(lats[WindowStart(log, seen, w)..seen[|log| - 1]], bounds, score);
    }
  }

  lemma SnapshotScore(window: seq<real>, bounds: set<Score>, score: Option<Score>)
    requires Inf in bounds && ScoreIs(Snapshot(window, bounds), score)
    ensures score.Some? && score.value in bounds && MostAtMost(window, score.value)
    ensures forall b :: b in bounds && MostAtMost(window, b) ==> AtMost(score.value, b)
  {
    var h := Snapshot(window, bounds);
    assert Inf in h;
    assert Greatest(h.Keys) == Inf;
    CountAtTop(window);
    assert Total(h) == |window| as real;
    forall b | b in bounds
      ensures h[b] >= SHARE * Total(h) <==> MostAtMost(window, b)
    {
    }
    assert MostAtMost(window, Inf);
    assert h[Inf] >= SHARE * Total(h);
  }

  // ---- servers that restart ----

  /** Scrape i saw `obs[i]`, all latencies of the server's life so far; a restart begins a new life. */
  ghost predicate Observes(log: Scrapes, obs: seq<seq<real>>, bounds: set<Score>) {
    && |obs| == |log|
    && forall i :: 0 <= i < |log| && log[i].Some? ==> log[i].value == Exposed(obs[i], bounds)
  }

  /** What slot `j` has of a server: the latencies of the last scrape there that saw any. */
  function LatestSeen(log: Scrapes, obs: seq<seq<real>>, w: nat, j: nat): seq<real>
    requires w >= 1 && |obs| == |log|
  {
    if log == [] then []
    else
      var n := |log| - 1;
      if n % w == j && log[n].Some? && obs[n] != [] then obs[n] else LatestSeen(log[..n], obs[..n], w, j)
  }

  /** What the difference compares: new and old latencies of the last scrape at which there were any. */
  function Compared(log: Scrapes, obs: seq<seq<real>>, w: nat): Option<(seq<real>, seq<real>)>
    requires w >= 1 && |obs| == |log|
  {
    if log == [] then None
    else
      var n := |log| - 1;
      var past := LatestSeen(log[..n], obs[..n], w, n % w);
      if log[n].Some? && (obs[n] != [] || past != []) then Some((obs[n], past)) else Compared(log[..n], obs[..n], w)
  }

  function Difference(recent: seq<real>, past: seq<real>, bounds: set<Score>): Histogram {
    map b | b in bounds :: (CountAtMost(recent, b) - CountAtMost(past, b)) as real
  }

  lemma ObservesPrefix(log: Scrapes, obs: seq<seq<real>>, bounds: set<Score>, n: nat)
    requires Observes(log, obs, bounds) && n <= |log|
    ensures Observes(log[..n], obs[..n], bounds)
  {
  }

  /** An empty snapshot never clears a slot. */
  lemma {:induction false} SlotIsLatestSeen(log: Scrapes, obs: seq<seq<real>>, bounds: set<Score>, w: nat, j: nat)
    requires w >= 1 && Observes(log, obs, bounds)
    ensures Slot(log, w, j) == Exposed(LatestSeen(log, obs, w, j), bounds)
  {
    if log != [] {
      var n := |log| - 1;
      ObservesPrefix(log, obs, bounds, n);
      SlotIsLatestSeen(log[..n], obs[..n], bounds, w, j);
    }
  }

  lemma MinusIsDifference(recent: seq<real>, past: seq<real>, bounds: set<Score>)
    ensures recent == [] && past == [] ==> Minus(Exposed(recent, bounds), Exposed(past, bounds)) == map[]
    ensures recent != [] || past != [] ==>
              Minus(Exposed(recent, bounds), Exposed(past, bounds)) == Difference(recent, past, bounds)
  {
  }

  /** Whatever was skipped and however often the server restarted. */
  lemma {:induction false} DiffIsCompared(log: Scrapes, obs: seq<seq<real>>, bounds: set<Score>, w: nat)
    requires w >= 1 && Observes(log, obs, bounds)
    ensures Diff(log, w) ==
              match Compared(log, obs, w) { case None => map[] case Some(c) => Difference(c.0, c.1, bounds) }
  {
    if log != [] {
      var n := |log| - 1;
      ObservesPrefix(log, obs, bounds, n);
      DiffIsCompared(log[..n], obs[..n], bounds, w);
      SlotIsLatestSeen(log[..n], obs[..n], bounds, w, n % w);
      MinusIsDifference(obs[n], LatestSeen(log[..n], obs[..n], w, n % w), bounds);
    }
  }

  /** At least 95% of the growth in latencies, which may be negative, is at most `b`. */
  predicate ShareAtMost(recent: seq<real>, past: seq<real>, b: Score) {
    20 * (CountAtMost(recent, b) - CountAtMost(past, b)) >= 19 * (|recent| - |past|)
  }

  /** At every bound the count fell by more than 95% of the shortfall. */
  ghost predicate LostHistory(recent: seq<real>, past: seq<real>, bounds: set<Score>) {
    forall b :: b in bounds ==> 20 * (CountAtMost(past, b) - CountAtMost(recent, b)) > 19 * (|past| - |recent|)
  }

  /** The score that comparing these latencies gives; `None` when the percentile raises. */
  ghost predicate ComparedScore(recent: seq<real>, past: seq<real>, bounds: set<Score>, score: Option<Score>) {
    match score
    case None => LostHistory(recent, past, bounds)
    case Some(b) =>
      && b in bounds && ShareAtMost(recent, past, b)
      && forall k :: k in bounds && ShareAtMost(recent, past, k) ==> AtMost(b, k)
  }

  /** The score of a server by what its scrapes observed. */
  ghost predicate ScoreByObservation(
    log: Scrapes, obs: seq<seq<real>>, bounds: set<Score>, w: nat, score: Option<Score>
  )
    requires w >= 1 && |obs| == |log|
  {
    match Compared(log, obs, w)
    case None => score == Some(NO_DATA)
    case Some(c) => ComparedScore(c.0, c.1, bounds, score)
  }

  /** The score for any scrapes, skips and restarts: exactly what the observations say. */
  lemma ScoreIsByObservation(log: Scrapes, obs: seq<seq<real>>, bounds: set<Score>, w: nat, score: Option<Score>)
    requires w >= 1 && Observes(log, obs, bounds) && Inf in bounds
    ensures ScoreIs(Diff(log, w), score) <==> ScoreByObservation(log, obs, bounds, w, score)
  {
    DiffIsCompared(log, obs, bounds, w);
    match Compared(log, obs, w)
    case None =>
    case Some(c) => DifferenceScoreIff(c.0, c.1, bounds, score);
  }

  lemma DifferenceScoreIff(recent: seq<real>, past: seq<real>, bounds: set<Score>, score: Option<Score>)
    requires Inf in bounds
    ensures ScoreIs(Difference(recent, past, bounds), score) <==> ComparedScore(recent, past, bounds, score)
  {
    var h := Difference(recent, past, bounds);
    assert Inf in h;
    assert Greatest(h.Keys) == Inf;
    CountAtTop(recent);
    CountAtTop(past);
    assert Total(h) == (|recent| - |past|) as real;
    forall b | b in bounds
      ensures h[b] >= SHARE * Total(h) <==> ShareAtMost(recent, past, b)
    {
    }
  }

  /** Exactly when the percentile raises, for any number of restarts. */
  lemma PercentileRaisesIff(log: Scrapes, obs: seq<seq<real>>, bounds: set<Score>, w: nat)
    requires w >= 1 && Observes(log, obs, bounds) && Inf in bounds
    ensures ScoreIs(Diff(log, w), None) <==>
            Compared(log, obs, w).Some? &&
            LostHistory(Compared(log, obs, w).value.0, Compared(log, obs, w).value.1, bounds)
  {
    ScoreIsByObservation(log, obs, bounds, w, None);
  }

  /** As long as the server has not restarted, or has served as much again, nothing is lost. */
  lemma NothingLost(recent: seq<real>, past: seq<real>, bounds: set<Score>)
    requires |past| <= |recent| && Inf in bounds
    ensures !LostHistory(recent, past, bounds)
  {
    CountAtTop(recent);
    CountAtTop(past);
  }

  /**
    Before the first request of a new life the least bound decides: the percentile
    raises, or the score is the least there is.
   */
  lemma NothingServedLosesIff(past: seq<real>, bounds: set<Score>, low: Score)
    requires past != [] && low in bounds && forall b :: b in bounds ==> AtMost(low, b)
    ensures LostHistory([], past, bounds) <==> 20 * CountAtMost(past, low) > 19 * |past|
    ensures !LostHistory([], past, bounds) ==> ComparedScore([], past, bounds, Some(low))
  {
    forall b | b in bounds
      ensures CountAtMost(past, low) <= CountAtMost(past, b)
    {
      CountRises(past, low, b);
    }
  }

  lemma {:induction false} EmptyScrapesKeepSeen(
    log: Scrapes, obs: seq<seq<real>>, more: Scrapes, seen: seq<seq<real>>, w: nat, j: nat
  )
    requires w >= 1 && |obs| == |log| && |seen| == |more| && forall i :: 0 <= i < |seen| ==> seen[i] == []
    ensures LatestSeen(log + more, obs + seen, w, j) == LatestSeen(log, obs, w, j)
  {
    if more == [] {
      assert log + more == log && obs + seen == obs;
    } else {
      var n := |more| - 1;
      EmptyScrapesKeepSeen(log, obs, more[..n], seen[..n], w, j);
      assert (log + more)[..|log + more| - 1] == log + more[..n];
      assert (obs + seen)[..|log + more| - 1] == obs + seen[..n];
      assert (obs + seen)[|log + more| - 1] == seen[n];
    }
  }

  /**
    The failure lasts: however many scrapes a restarted server answers without having
    served anything, each is compared with what the slot has of its last life.
   */
  lemma RaisesUntilServed(
    log: Scrapes, obs: seq<seq<real>>, more: Scrapes, seen: seq<seq<real>>, bounds: set<Score>, w: nat,
    low: Score
  )
    requires w >= 1 && Observes(log + more, obs + seen, bounds) && |obs| == |log|
    requires Inf in bounds && low in bounds && forall b :: b in bounds ==> AtMost(low, b)
    requires more != [] && more[|more| - 1].Some? && forall i :: 0 <= i < |seen| ==> seen[i] == []
    requires LatestSeen(log, obs, w, (|log| + |more| - 1) % w) != []
    ensures var past := LatestSeen(log, obs, w, (|log| + |more| - 1) % w);
            ScoreIs(Diff(log + more, w), None) <==> 20 * CountAtMost(past, low) > 19 * |past|
  {
    var n := |log| + |more| - 1;
    var past := LatestSeen(log, obs, w, n % w);
    EmptyScrapesKeepSeen(log, obs, more[..|more| - 1], seen[..|more| - 1], w, n % w);
    assert (log + more)[..n] == log + more[..|more| - 1];
    assert (obs + seen)[..n] == obs + seen[..|more| - 1];
    assert (obs + seen)[n] == seen[|more| - 1];
    assert Compared(log + more, obs + seen, w) == Some(([], past));
    PercentileRaisesIff(log + more, obs + seen, bounds, w);
    NothingServedLosesIff(past, bounds, low);
  }

  /**
    For every window width and all bounds: a server whose one request was within the
    least bound restarts, and the percentile raises a window later.
   */
  lemma RestartedServerFails(lat: real, bounds: set<Score>, w: nat, low: Score)
    requires w >= 1 && Inf in bounds && low in bounds && forall b :: b in bounds ==> AtMost(low, b)
    requires AtMost(Fin(lat), low)
    ensures ScoreIs(Diff([Some(Snapshot([lat], bounds))] + seq(w, i => Some(map[])), w), None)
  {
    var log, obs := [Some(Snapshot([lat], bounds))], [[lat]];
    var more: Scrapes, seen: seq<seq<real>> := seq(w, i => Some(map[])), seq(w, i => []);
    SameResidue(0, w);
    assert log[..0] == [] && obs[..0] == [];
    assert LatestSeen(log, obs, w, w % w) == [lat];
    RaisesUntilServed(log, obs, more, seen, bounds, w, low);
    assert CountAtMost([lat], low) == 1 by {
      assert [lat][..0] == [];
    }
  }

  /** With no skipped scrape the window is that of the last w scrapes, or everything while there are fewer. */
  lemma WindowIsLastScrapes(log: Scrapes, seen: seq<nat>, w: nat)
    requires w >= 1 && log != [] && |seen| == |log|
    requires forall i :: 0 <= i < |log| ==> log[i].Some?
    ensures WindowStart(log, seen, w) == if |log| > w then seen[|log| - 1 - w] else 0
  {
    var n := |log| - 1;
    var rest := log[..n];
    LatestIsWritten(rest, w, n % w);
    var m := LatestAt(rest, w, n % w);
    if n >= w {
      assert (n - w) % w == n % w by { SameResidue(n - w, w); }
      assert rest[n - w].Some?;
      if m.value > n - w {
        SameResidueFar(m.value, n, w);
      }
    } else if m.Some? {
      SameResidueFar(m.value, n, w);
    }
  }

  lemma SameResidue(a: nat, w: nat)
    requires w >= 1
    ensures (a + w) % w == a % w
  {
    assert a == (a / w) * w + a % w;
    assert a + w == (a / w + 1) * w + a % w;
    RemainderIs(a + w, w, a / w + 1, a % w);
  }

  lemma RemainderIs(a: nat, w: nat, q: nat, r: nat)
    requires w >= 1 && a == q * w + r && r < w
    ensures a % w == r
  {
    var d := a / w - q;
    assert a == (a / w) * w + a % w;
    assert d * w == r - a % w;
    assert d >= 1 ==> d * w >= w;
    assert d <= -1 ==> d * w <= -1 * w;
  }

  /** Different indices with the same residue are at least w apart. */
  lemma SameResidueFar(a: nat, b: nat, w: nat)
    requires w >= 1 && a < b && a % w == b % w
    ensures b - a >= w
  {
    assert a == (a / w) * w + a % w && b == (b / w) * w + b % w;
    var d := b / w - a / w;
    assert b - a == d * w;
    assert d <= 0 ==> d * w <= 0;
    assert d >= 1 ==> d * w >= w;
  }
}
