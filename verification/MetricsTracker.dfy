/**
  The metrics tracker: one monitoring task per url, suspended at its fetch or its
  sleep, and the ring of past histograms they update in place. The ghost field
  `logs` records every completed scrape; Valid says that the fields hold exactly
  what module Ring derives from it, however the tasks were stopped and restarted.
 */
module Metrics {
  import opened Wrappers
  import opened Scores
  import opened Histograms
  import opened Ring

  /** Idle: about to loop. Fetching: suspended in the fetch, having read the index. */
  datatype TaskPhase = Idle | Fetching(index: nat) | Sleeping

  /**
    `update_histogram`: both dictionaries are updated, not replaced. A key that is in
    the new histogram or in the slot gets, in the difference, the count that leads from
    the slot's old value to the new one; the slot then has the new values.
   */
  method UpdateHistogram(newest: Histogram, last: Histogram, diff: Histogram)
    returns (last': Histogram, diff': Histogram)
    ensures last'.Keys == last.Keys + newest.Keys
    ensures forall k :: k in last' ==> last'[k] == if k in newest then newest[k] else last[k]
    ensures diff'.Keys == diff.Keys + newest.Keys + last.Keys
    ensures forall k :: k in newest.Keys + last.Keys ==> At(last, k) + diff'[k] == At(newest, k)
    ensures forall k :: k in diff.Keys - newest.Keys - last.Keys ==> diff'[k] == diff[k]
  {
    var change := Minus(newest, last);
    last' := last + newest;
    diff' := diff + change;
  }

  /** What the tracker keeps of one url. */
  datatype Track = Track(index: nat, slots: seq<Histogram>, diff: Histogram)

  /** One completed scrape: write slot and difference unless it was empty, then advance. */
  function Written(t: Track, content: Option<Histogram>, w: nat): Track
    requires w >= 1 && InRange(t)
  {
    var index := (t.index + 1) % w;
    if content.None? then t.(index := index)
    else Track(index, t.slots[t.index := t.slots[t.index] + content.value],
          t.diff + Minus(content.value, t.slots[t.index]))
  }

  /** The code between the end of a fetch and the next suspension, on the index read before it. */
  method UpdateTrack(t: Track, index: nat, content: Option<Histogram>, w: nat) returns (t': Track)
    requires w >= 1 && InRange(t) && index == t.index
    ensures t' == Written(t, content, w)
  {
    t' := t;
    if content.Some? {
      var last', diff' := UpdateHistogram(content.value, t.slots[index], t.diff);
      assert last' == t.slots[index] + content.value && diff' == t.diff + Minus(content.value, t.slots[index]);
      t' := t'.(slots := t.slots[index := last'], diff := diff');
    }
    t' := t'.(index := (t.index + 1) % w);
  }

  function TrackAfter(log: Scrapes, w: nat): (t: Track)
    requires w >= 1
    ensures |t.slots| == w && t.index < w
  {
    if log == [] then Track(0, seq(w, i => map[]), map[])
    else Written(TrackAfter(log[..|log| - 1], w), log[|log| - 1], w)
  }

  lemma TrackGrows(log: Scrapes, content: Option<Histogram>, w: nat)
    requires w >= 1
    ensures TrackAfter(log + [content], w) == Written(TrackAfter(log, w), content, w)
  {
    assert (log + [content])[..|log|] == log;
  }

  /**
    The ring invariant: the index is the number of scrapes modulo the width, every slot
    holds the override-fold of the snapshots written at its index, and the difference
    histogram is that of module Ring.
   */
  lemma {:induction false} TrackMeaning(log: Scrapes, w: nat)
    requires w >= 1
    ensures var t := TrackAfter(log, w);
            && t.index == |log| % w
            && (forall j :: 0 <= j < w ==> t.slots[j] == Slot(log, w, j))
            && t.diff == Diff(log, w)
  {
    if log != [] {
      TrackMeaning(log[..|log| - 1], w);
      NextIndex(|log| - 1, w);
    }
  }

  /** The parser's pattern only yields bounds that are not negative, so above the sentinel. */
  ghost predicate Plausible(content: Option<Histogram>) {
    content.Some? ==> forall k :: k in content.value ==> Below(NO_DATA, k)
  }

  ghost predicate AllPlausible(log: Scrapes) {
    forall i :: 0 <= i < |log| ==> Plausible(log[i])
  }

  lemma {:induction false} DiffAboveSentinel(log: Scrapes, w: nat)
    requires w >= 1 && AllPlausible(log)
    ensures forall k :: k in Diff(log, w) ==> Below(NO_DATA, k)
    ensures forall j: nat, k :: k in Slot(log, w, j) ==> Below(NO_DATA, k)
  {
    if log != [] {
      var n := |log| - 1;
      DiffAboveSentinel(log[..n], w);
      assert Plausible(log[n]);
    }
  }

  /** What is kept of a url is what its scrapes make of it. */
  ghost predicate Kept(log: Scrapes, w: nat, t: Track)
    requires w >= 1
  {
    AllPlausible(log) && t == TrackAfter(log, w)
  }

  lemma WriteKeeps(log: Scrapes, w: nat, t: Track, content: Option<Histogram>)
    requires w >= 1 && Kept(log, w, t) && Plausible(content)
    ensures t.index < |t.slots| && Kept(log + [content], w, Written(t, content, w))
  {
    TrackGrows(log, content, w);
  }

  ghost predicate AllKept(logs: map<string, Scrapes>, w: nat, tracks: map<string, Track>)
    requires w >= 1
  {
    tracks.Keys == logs.Keys && forall url :: url in logs ==> Kept(logs[url], w, tracks[url])
  }

  lemma WriteKeepsAll(
    logs: map<string, Scrapes>, w: nat, tracks: map<string, Track>, url: string, content: Option<Histogram>, t: Track
  )
    requires w >= 1 && AllKept(logs, w, tracks) && url in logs && Plausible(content)
    requires InRange(tracks[url]) && t == Written(tracks[url], content, w)
    ensures AllKept(logs[url := logs[url] + [content]], w, tracks[url := t])
  {
    WriteKeeps(logs[url], w, tracks[url], content);
  }

  ghost predicate InRange(t: Track) {
    t.index < |t.slots|
  }

  lemma KeptInRange(logs: map<string, Scrapes>, w: nat, tracks: map<string, Track>, url: string)
    requires w >= 1 && AllKept(logs, w, tracks) && url in logs
    ensures InRange(tracks[url])
  {
    assert Kept(logs[url], w, tracks[url]);
  }

  /** The monitored urls have a track; the index a task read before its fetch is still the track's. */
  ghost predicate InStep(tasks: map<string, TaskPhase>, tracks: map<string, Track>) {
    forall url :: url in tasks ==>
      url in tracks && (tasks[url].Fetching? ==> tasks[url].index == tracks[url].index)
  }

  ghost predicate Consistent(
    logs: map<string, Scrapes>, w: nat, tracks: map<string, Track>, tasks: map<string, TaskPhase>,
    monitoring: bool, urls: seq<string>
  )
    requires w >= 1
  {
    && AllKept(logs, w, tracks)
    && InStep(tasks, tracks)
    && (forall url :: url in urls ==> url in tracks)
    && (tasks != map[] ==> monitoring)
  }

  lemma WriteKeepsConsistent(
    logs: map<string, Scrapes>, w: nat, tracks: map<string, Track>, tasks: map<string, TaskPhase>,
    monitoring: bool, urls: seq<string>,
    url: string, content: Option<Histogram>, t: Track
  )
    requires w >= 1 && Consistent(logs, w, tracks, tasks, monitoring, urls) && url in tasks && Plausible(content)
    requires InRange(tracks[url]) && t == Written(tracks[url], content, w)
    ensures Consistent(
              logs[url := logs[url] + [content]], w, tracks[url := t], tasks[url := Sleeping], monitoring, urls)
  {
    WriteKeepsAll(logs, w, tracks, url, content, t);
  }

  /** The new track of `url`, written at the index its task read before the fetch. */
  method Refreshed(
    ghost logs: map<string, Scrapes>, w: nat, tracks: map<string, Track>, tasks: map<string, TaskPhase>,
    ghost monitoring: bool, ghost urls: seq<string>, url: string, content: Option<Histogram>
  )
    returns (t: Track)
    requires w >= 1 && Consistent(logs, w, tracks, tasks, monitoring, urls) && Plausible(content)
    requires url in tasks && tasks[url].Fetching?
    ensures Consistent(
              logs[url := logs[url] + [content]], w, tracks[url := t], tasks[url := Sleeping], monitoring, urls)
  {
    KeptInRange(logs, w, tracks, url);
    t := UpdateTrack(tracks[url], tasks[url].index, content, w);
    WriteKeepsConsistent(logs, w, tracks, tasks, monitoring, urls, url, content, t);
  }

  class MetricsTracker {
    const width: nat // refresh_count_per_window
    var urls: seq<string>
    // the window index, the ring of histograms and the difference histogram of every url
    var tracks: map<string, Track>
    var monitoring: bool
    var tasks: map<string, TaskPhase>
    ghost var logs: map<string, Scrapes>

    ghost predicate Valid()
      reads this
    {
      && width >= 1
      && Consistent(logs, width, tracks, tasks, monitoring, urls)
    }

    constructor (urls: seq<string>, width: nat)
      requires width >= 1
      ensures Valid() && !monitoring && tasks == map[]
      ensures this.urls == urls && this.width == width
      ensures logs == map url | url in urls :: []
    {
      this.width := width;
      this.urls := urls;
      tracks := map url | url in urls :: Track(0, seq(width, i => map[]), map[]);
      monitoring := false;
      tasks := map[];
      logs := map url | url in urls :: [];
    }

    method UpdateUrls(urls: seq<string>)
      requires Valid() && forall url :: url in urls ==> url in logs
      modifies this`urls
      ensures Valid() && this.urls == urls
    {
      this.urls := urls;
    }

    method Monitor()
      requires Valid()
      modifies this`monitoring, this`tasks
      ensures Valid() && monitoring
      ensures tasks == if old(monitoring) then old(tasks) else map url | url in urls :: Idle
    {
      if monitoring {
        return;
      }
      monitoring := true;
      tasks := map url | url in urls :: Idle;
    }

    /** The cancelled tasks are at a suspension point; they run no further. */
    method StopMonitor()
      requires Valid()
      modifies this`monitoring, this`tasks
      ensures Valid() && !monitoring && tasks == map[]
    {
      if !monitoring {
        return;
      }
      monitoring := false;
      tasks := map[];
    }

    /** A task enters the fetch; the window index is read here. */
    method BeginFetch(url: string)
      requires Valid() && url in tasks && !tasks[url].Fetching?
      modifies this`tasks
      ensures Valid() && tasks == old(tasks)[url := Fetching(tracks[url].index)]
    {
      tasks := tasks[url := Fetching(tracks[url].index)];
    }

    /** The connection failed: the loop continues at once, nothing is written, the index stays. */
    method FetchFails(url: string)
      requires Valid() && url in tasks && tasks[url].Fetching?
      modifies this`tasks
      ensures Valid() && tasks == old(tasks)[url := Idle]
    {
      tasks := tasks[url := Idle];
    }

    /** Any other error ends the task. */
    method TaskDies(url: string)
      requires Valid() && url in tasks
      modifies this`tasks
      ensures Valid() && tasks == old(tasks) - {url}
    {
      tasks := tasks - {url};
    }

    /**
      The fetch returns and the task runs to its next suspension: slot and difference
      are written at the index read before the fetch, then the index advances.
     */
    method FinishFetch(url: string, content: Option<Histogram>)
      requires Valid() && url in tasks && tasks[url].Fetching?
      requires Plausible(content)
      modifies this`tracks, this`tasks, this`logs
      ensures Valid()
      ensures logs == old(logs)[url := old(logs)[url] + [content]]
      ensures tasks == old(tasks)[url := Sleeping]
    {
      var t := Refreshed(logs, width, tracks, tasks, monitoring, urls, url, content);
      tracks := tracks[url := t];
      tasks := tasks[url := Sleeping];
      logs := logs[url := logs[url] + [content]];
    }

    /** The score of a server, as the strategy computes it; `None` if the percentile raises. */
    method GetServerScore(url: string) returns (score: Option<Score>)
      requires Valid() && url in logs
      ensures ScoreIs(Diff(logs[url], width), score)
      ensures score.Some? ==> AtMost(NO_DATA, score.value)
    {
      assert Kept(logs[url], width, tracks[url]);
      TrackMeaning(logs[url], width);
      DiffAboveSentinel(logs[url], width);
      score := ScoreHistogram(tracks[url].diff);
    }
  }

  /** `business_score` of the percentile. */
  method ScoreHistogram(h: Histogram) returns (score: Option<Score>)
    ensures ScoreIs(h, score)
    ensures h == map[] ==> score == Some(Fin(-1.0))
    ensures score.Some? ==> score.value == NO_DATA || score.value in h
  {
    var bucket := GetPercentile(h, SHARE);
    match bucket {
      case Err(_) => score := None;
      case Ok(None) => score := Some(NO_DATA);
      case Ok(Some(b)) => score := Some(b.1);
    }
  }

  lemma NextIndex(n: nat, w: nat)
    requires w >= 1
    ensures (n % w + 1) % w == (n + 1) % w
  {
    var q, r := n / w, n % w;
    assert n == q * w + r;
    if r + 1 == w {
      assert n + 1 == (q + 1) * w + 0;
      RemainderIs(n + 1, w, q + 1, 0);
      RemainderIs(w, w, 1, 0);
    } else {
      RemainderIs(n + 1, w, q, r + 1);
      RemainderIs(r + 1, w, 0, r + 1);
    }
  }
}
