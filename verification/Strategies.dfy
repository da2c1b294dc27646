/**
  Server selection: the pinger's list of healthy servers, the least-busy strategy
  with its metrics tracker, and their joint update.
 */
module Strategies {
  import opened Wrappers
  import opened Messages
  import opened RpcServer
  import opened Scores
  import opened Histograms
  import opened Ring
  import opened Metrics

  function Urls(servers: seq<Server>): (urls: seq<string>)
    ensures |urls| == |servers| && forall i :: 0 <= i < |servers| ==> urls[i] == servers[i].url
  {
    seq(|servers|, i requires 0 <= i < |servers| => servers[i].url)
  }

  lemma UrlsOfServers(servers: seq<Server>)
    ensures forall s :: s in servers ==> s.url in Urls(servers)
    ensures forall url :: url in Urls(servers) ==> exists s :: s in servers && s.url == url
  {
    forall s | s in servers
      ensures s.url in Urls(servers)
    {
      var i :| 0 <= i < |servers| && servers[i] == s;
      assert Urls(servers)[i] in Urls(servers);
    }
    forall url | url in Urls(servers)
      ensures exists s :: s in servers && s.url == url
    {
      var i :| 0 <= i < |servers| && Urls(servers)[i] == url;
      assert servers[i] in servers;
    }
  }

  /** The comprehension of the pinger: the servers whose ping succeeded, in order. */
  function Healthy(servers: seq<Server>, up: seq<bool>): seq<Server>
    requires |up| == |servers|
  {
    if servers == [] then []
    else
      var n := |servers| - 1;
      Healthy(servers[..n], up[..n]) + if up[n] then [servers[n]] else []
  }

  ghost predicate UpAt(servers: seq<Server>, up: seq<bool>, s: Server, i: nat)
    requires |up| == |servers|
  {
    i < |servers| && servers[i] == s && up[i]
  }

  lemma {:induction false} HealthyMeaning(servers: seq<Server>, up: seq<bool>, s: Server)
    requires |up| == |servers|
    ensures s in Healthy(servers, up) <==> exists i :: UpAt(servers, up, s, i)
  {
    if servers != [] {
      var n := |servers| - 1;
      HealthyMeaning(servers[..n], up[..n], s);
      forall i: nat
        ensures UpAt(servers, up, s, i) <==> UpAt(servers[..n], up[..n], s, i) || (i == n && UpAt(servers, up, s, n))
      {
      }
      if UpAt(servers, up, s, n) {
        assert s in Healthy(servers, up);
      }
      if i :| UpAt(servers[..n], up[..n], s, i) {
        assert UpAt(servers, up, s, i);
      }
    }
  }

  lemma {:induction false} HealthyKeepsServers(servers: seq<Server>, up: seq<bool>)
    requires |up| == |servers| && DistinctUrls(servers)
    ensures forall s :: s in Healthy(servers, up) ==> s in servers
    ensures DistinctUrls(Healthy(servers, up))
  {
    if servers != [] {
      var n := |servers| - 1;
      HealthyKeepsServers(servers[..n], up[..n]);
      var rest := Healthy(servers[..n], up[..n]);
      assert servers == servers[..n] + [servers[n]];
      forall i | 0 <= i < |rest|
        ensures rest[i].url != servers[n].url
      {
        assert rest[i] in servers[..n];
      }
    }
  }

  /** The list keeps the order of the configuration. */
  lemma {:induction false} HealthyInOrder(servers: seq<Server>, up: seq<bool>, i: nat, j: nat)
    requires |up| == |servers| && i < j < |servers| && up[i] && up[j]
    ensures exists a, b :: 0 <= a < b < |Healthy(servers, up)|
                           && Healthy(servers, up)[a] == servers[i] && Healthy(servers, up)[b] == servers[j]
  {
    var n := |servers| - 1;
    var before := Healthy(servers[..n], up[..n]);
    if j < n {
      HealthyInOrder(servers[..n], up[..n], i, j);
      var a, b :| 0 <= a < b < |before| && before[a] == servers[i] && before[b] == servers[j];
      assert Healthy(servers, up)[a] == servers[i] && Healthy(servers, up)[b] == servers[j];
    } else {
      HealthyMeaning(servers[..n], up[..n], servers[i]);
      assert UpAt(servers[..n], up[..n], servers[i], i);
      var a :| 0 <= a < |before| && before[a] == servers[i];
      assert Healthy(servers, up)[a] == servers[i] && Healthy(servers, up)[|before|] == servers[j];
    }
  }

  /** The strategy is left without servers exactly when every ping failed. */
  lemma {:induction false} NoneHealthy(servers: seq<Server>, up: seq<bool>)
    requires |up| == |servers|
    ensures Healthy(servers, up) == [] <==> forall i :: 0 <= i < |up| ==> !up[i]
  {
    if servers != [] {
      var n := |servers| - 1;
      NoneHealthy(servers[..n], up[..n]);
      assert up == up[..n] + [up[n]];
    }
  }

  /** A server's latencies and how many of them each of its scrapes had seen. */
  datatype Stream = Stream(lats: seq<real>, seen: seq<nat>) {

    ghost predicate Explains(log: Scrapes, bounds: set<Score>) {
      ScrapesOf(log, lats, seen, bounds)
    }

    /** What each scrape had seen. */
    ghost function Prefixes(): seq<seq<real>> {
      seq(|seen|, i requires 0 <= i < |seen| => if seen[i] <= |lats| then lats[..seen[i]] else [])
    }

    /** The latencies the newest non-empty scrape had seen. */
    function Total(log: Scrapes): nat {
      var n := UpToWritten(log);
      if n == 0 || |seen| < n then 0 else seen[n - 1]
    }

    /** The latencies between the scrape the newest non-empty one overwrote and that one. */
    function Window(log: Scrapes, w: nat): seq<real>
      requires w >= 1 && |seen| == |log|
    {
      var n := UpToWritten(log);
      if n == 0 then []
      else
        var start := WindowStart(log[..n], seen[..n], w);
        if start <= Total(log) <= |lats| then lats[start..Total(log)] else []
    }

    lemma Refines(log: Scrapes, bounds: set<Score>, w: nat, score: Option<Score>)
      requires w >= 1 && Explains(log, bounds) && Inf in bounds && NO_DATA !in bounds
      requires ScoreIs(Diff(log, w), score)
      ensures score.Some? && (score == Some(NO_DATA) <==> Total(log) == 0)
      ensures Total(log) > 0 ==> IsPercentile(Window(log, w), bounds, score.value)
    {
      var n := UpToWritten(log);
      DiffUpToWritten(log, w);
      if n > 0 {
        assert ScrapesOf(log[..n], lats, seen[..n], bounds);
        WindowRefinement(log[..n], lats, seen[..n], bounds, w, score);
      }
    }
  }

  /** `b` is the least of the bounds that 95% of the latencies do not exceed. */
  ghost predicate IsPercentile(window: seq<real>, bounds: set<Score>, b: Score) {
    b in bounds && MostAtMost(window, b) && forall k :: k in bounds && MostAtMost(window, k) ==> AtMost(b, k)
  }

  datatype ChoiceError = ServerNotFound | PercentileError

  class LeastBusy {
    const configured: seq<Server>
    const tracker: MetricsTracker
    var servers: seq<Server>

    /**
      The view a callback has: the tracked urls are those of the strategy's servers, all
      have histograms, and no other url is monitored.
     */
    ghost predicate Consistent()
      reads this, tracker
    {
      && tracker.Valid()
      && DistinctUrls(configured)
      && DistinctUrls(servers)
      && tracker.urls == Urls(servers)
      && (forall s :: s in servers ==> s in configured)
      && (forall s :: s in configured ==> s.url in tracker.logs)
      && (forall url :: url in tracker.tasks ==> url in tracker.urls)
    }

    constructor (servers: seq<Server>, tracker: MetricsTracker)
      requires tracker.Valid() && DistinctUrls(servers) && tracker.urls == Urls(servers)
      requires forall url :: url in tracker.tasks ==> url in tracker.urls
      ensures Consistent() && this.servers == servers && configured == servers && this.tracker == tracker
    {
      configured := servers;
      this.tracker := tracker;
      this.servers := servers;
      new;
      forall s | s in servers
        ensures s.url in tracker.logs
      {
        var i :| 0 <= i < |servers| && servers[i] == s;
        assert tracker.urls[i] in tracker.urls;
      }
    }

    /** `create`: a tracker of its own, already monitoring every server. */
    static method Create(servers: seq<Server>, width: nat) returns (strategy: LeastBusy)
      requires DistinctUrls(servers) && width >= 1
      ensures fresh(strategy) && fresh(strategy.tracker)
      ensures strategy.Consistent() && strategy.servers == servers && strategy.configured == servers
      ensures strategy.tracker.width == width && strategy.tracker.monitoring
      ensures strategy.Monitors(servers)
      ensures forall url :: url in strategy.tracker.logs ==> strategy.tracker.logs[url] == []
    {
      var tracker := new MetricsTracker(Urls(servers), width);
      tracker.Monitor();
      strategy := new LeastBusy(servers, tracker);
      UrlsOfServers(servers);
    }

    /** Exactly these servers have a monitoring task. */
    ghost predicate Monitors(target: seq<Server>)
      reads this, tracker
    {
      && (forall s :: s in target ==> s.url in tracker.tasks)
      && (forall url :: url in tracker.tasks ==> exists s :: s in target && s.url == url)
    }

    /** `update_servers` up to its one suspension, the wait for the cancelled tasks. */
    method BeginUpdate(target: seq<Server>) returns (changed: bool)
      requires Consistent()
      modifies tracker`monitoring, tracker`tasks
      ensures Consistent() && (changed <==> target != servers)
      ensures changed ==> !tracker.monitoring && tracker.tasks == map[]
      ensures !changed ==> tracker.monitoring == old(tracker.monitoring) && tracker.tasks == old(tracker.tasks)
    {
      changed := target != servers;
      if changed {
        tracker.StopMonitor();
      }
    }

    /** The rest of `update_servers`, which does not suspend. */
    method FinishUpdate(target: seq<Server>)
      requires Consistent() && DistinctUrls(target) && !tracker.monitoring
      requires forall s :: s in target ==> s in configured
      modifies this`servers, tracker`urls, tracker`monitoring, tracker`tasks
      ensures Consistent() && servers == target && tracker.monitoring
      ensures Monitors(target)
    {
      servers := target;
      var urls := Urls(target);
      forall url | url in urls
        ensures url in tracker.logs
      {
        var i :| 0 <= i < |urls| && urls[i] == url;
        assert target[i] in target;
      }
      tracker.UpdateUrls(urls);
      tracker.Monitor();
      UrlsOfServers(target);
    }

    /**
      One round of the pinger: the strategy ends up with exactly the healthy servers
      and keeps everything it has measured.
     */
    method PingRound(up: seq<bool>)
      requires Consistent() && |up| == |configured|
      modifies this`servers, tracker`urls, tracker`monitoring, tracker`tasks
      ensures Consistent() && servers == Healthy(configured, up)
      ensures servers != old(servers) ==> tracker.monitoring && Monitors(servers)
      ensures servers == old(servers) ==> tracker.tasks == old(tracker.tasks)
      ensures tracker.logs == old(tracker.logs) && tracker.tracks == old(tracker.tracks)
    {
      var healthy := Healthy(configured, up);
      HealthyKeepsServers(configured, up);
      var changed := BeginUpdate(healthy);
      if changed {
        FinishUpdate(healthy);
      }
    }

    /** The score of a server according to its scrapes; `None` if its percentile raises. */
    ghost predicate ServerScore(s: Server, score: Option<Score>)
      reads tracker
      requires tracker.width >= 1 && s.url in tracker.logs
    {
      ScoreIs(Diff(tracker.logs[s.url], tracker.width), score)
    }

    /** `scores` has the scores of the first servers, none below the sentinel. */
    ghost predicate ScoresOf(scores: seq<Score>)
      reads this, tracker
    {
      && tracker.width >= 1 && |scores| <= |servers|
      && forall i :: 0 <= i < |scores| ==>
           servers[i].url in tracker.logs && ServerScore(servers[i], Some(scores[i])) && AtMost(NO_DATA, scores[i])
    }

    lemma OneMoreScore(scores: seq<Score>, b: Score)
      requires ScoresOf(scores) && |scores| < |servers| && servers[|scores|].url in tracker.logs
      requires ServerScore(servers[|scores|], Some(b)) && AtMost(NO_DATA, b)
      ensures ScoresOf(scores + [b])
    {
    }

    lemma UrlAt(i: nat)
      requires Consistent() && i < |servers|
      ensures i < |tracker.urls| && tracker.urls[i] == servers[i].url && servers[i].url in tracker.logs
    {
      assert servers[i] in servers;
    }

    /** The scoring loop of `choose_server`; `None` if a percentile raises. */
    method ScoreServers() returns (scores: Option<seq<Score>>)
      requires Consistent()
      ensures scores.None? ==> exists i :: 0 <= i < |servers| && ServerScore(servers[i], None)
      ensures scores.Some? ==> |scores.value| == |servers| && ScoresOf(scores.value)
    {
      var r: seq<Score> := [];
      for i := 0 to |tracker.urls|
        invariant |r| == i && ScoresOf(r)
      {
        UrlAt(i);
        var score := tracker.GetServerScore(tracker.urls[i]);
        if score.None? {
          assert ServerScore(servers[i], None);
          return None;
        }
        OneMoreScore(r, score.value);
        r := r + [score.value];
      }
      return Some(r);
    }

    /**
      What `choose_server` promises: it fails exactly when no server is known or a
      percentile raises, and otherwise returns a server of least score; a server without
      history scores below every bucket bound, and its score is not reported.
     */
    ghost predicate IsChoice(r: Result<(Server, Option<Score>), ChoiceError>)
      requires Consistent()
      reads this, tracker
    {
      && (r.Err? && r.error.ServerNotFound? <==> servers == [])
      && (r.Err? && r.error.PercentileError? <==> exists i :: 0 <= i < |servers| && ServerScore(servers[i], None))
      && (r.Ok? ==>
            && r.value.0 in servers && ServerScore(r.value.0, Some(r.value.1.GetOr(NO_DATA)))
            && r.value.1 != Some(NO_DATA)
            && forall i, b :: 0 <= i < |servers| && ServerScore(servers[i], Some(b)) ==>
                  AtMost(r.value.1.GetOr(NO_DATA), b))
    }

    // ---- the choice by what the scrapes observed ----

    ghost predicate Observed(s: Server, obs: map<string, seq<seq<real>>>, bounds: set<Score>)
      reads tracker
    {
      s.url in tracker.logs && s.url in obs && Observes(tracker.logs[s.url], obs[s.url], bounds)
    }

    ghost predicate ServerObservation(
      s: Server, obs: map<string, seq<seq<real>>>, bounds: set<Score>, score: Option<Score>
    )
      requires tracker.width >= 1 && Observed(s, obs, bounds)
      reads tracker
    {
      ScoreByObservation(tracker.logs[s.url], obs[s.url], bounds, tracker.width, score)
    }

    lemma ObservationIsScore(
      s: Server, obs: map<string, seq<seq<real>>>, bounds: set<Score>, score: Option<Score>
    )
      requires tracker.width >= 1 && Observed(s, obs, bounds) && Inf in bounds
      ensures ServerScore(s, score) <==> ServerObservation(s, obs, bounds, score)
    {
      ScoreIsByObservation(tracker.logs[s.url], obs[s.url], bounds, tracker.width, score);
    }

    /**
      From what the scrapes observed to the choice, whatever was skipped and however
      often servers restarted: it raises exactly when some server has lost its history,
      and otherwise takes a server whose observed score is the least of all.
     */
    lemma ChoiceByObservation(
      r: Result<(Server, Option<Score>), ChoiceError>, obs: map<string, seq<seq<real>>>, bounds: set<Score>
    )
      requires Consistent() && IsChoice(r) && Inf in bounds
      requires forall s :: s in servers ==> Observed(s, obs, bounds)
      ensures r.Err? && r.error.ServerNotFound? <==> servers == []
      ensures r.Err? && r.error.PercentileError? <==>
              exists s :: s in servers && ServerObservation(s, obs, bounds, None)
      ensures r.Ok? ==>
                && r.value.0 in servers
                && ServerObservation(r.value.0, obs, bounds, Some(r.value.1.GetOr(NO_DATA)))
                && r.value.1 != Some(NO_DATA)
      ensures r.Ok? ==> forall s, b :: s in servers && ServerObservation(s, obs, bounds, Some(b)) ==>
                                         AtMost(r.value.1.GetOr(NO_DATA), b)
    {
      forall s, score | s in servers
        ensures ServerScore(s, score) <==> ServerObservation(s, obs, bounds, score)
      {
        ObservationIsScore(s, obs, bounds, score);
      }
      if s :| s in servers && ServerObservation(s, obs, bounds, None) {
        var i :| 0 <= i < |servers| && servers[i] == s;
        assert ServerScore(servers[i], None);
      }
      forall s, b | s in servers && ServerObservation(s, obs, bounds, Some(b))
        ensures r.Ok? ==> AtMost(r.value.1.GetOr(NO_DATA), b)
      {
        var i :| 0 <= i < |servers| && servers[i] == s;
        assert ServerScore(servers[i], Some(b));
      }
    }

    /** The choice in numbers: -1 for a server never observed, and no observed score is smaller. */
    lemma ChoiceInNumbers(
      r: Result<(Server, Option<Score>), ChoiceError>, obs: map<string, seq<seq<real>>>, bounds: set<Score>,
      s: Server, x: real
    )
      requires Consistent() && IsChoice(r) && Inf in bounds
      requires forall v :: v in servers ==> Observed(v, obs, bounds)
      requires s in servers && ServerObservation(s, obs, bounds, Some(Fin(x)))
      ensures r.Ok? && r.value.1.Some? ==> r.value.1.value.Fin? && r.value.1.value.v <= x && r.value.1.value.v != -1.0
      ensures r.Ok? && r.value.1.None? ==> -1.0 <= x && ServerObservation(r.value.0, obs, bounds, Some(Fin(-1.0)))
    {
      ObservationIsScore(s, obs, bounds, Some(Fin(x)));
      ScoreBoundsChoice(r, s, Fin(x));
      if r.Ok? {
        ObservationIsScore(r.value.0, obs, bounds, Some(r.value.1.GetOr(NO_DATA)));
      }
    }

    /** What the newest comparison of a server's scrapes was of. */
    ghost predicate ServerCompares(s: Server, obs: map<string, seq<seq<real>>>, recent: seq<real>, past: seq<real>)
      reads tracker
    {
      && tracker.width >= 1 && s.url in tracker.logs && s.url in obs
      && |obs[s.url]| == |tracker.logs[s.url]|
      && Compared(tracker.logs[s.url], obs[s.url], tracker.width) == Some((recent, past))
    }

    /** Exactly when `choose_server` raises, in the latencies themselves. */
    lemma ChoiceRaisesIff(
      r: Result<(Server, Option<Score>), ChoiceError>, obs: map<string, seq<seq<real>>>, bounds: set<Score>
    )
      requires Consistent() && IsChoice(r) && Inf in bounds
      requires forall s :: s in servers ==> Observed(s, obs, bounds)
      ensures r.Err? && r.error.PercentileError? <==>
              exists s, recent, past ::
                s in servers && ServerCompares(s, obs, recent, past) && LostHistory(recent, past, bounds)
    {
      ChoiceByObservation(r, obs, bounds);
      if s :| s in servers && ServerObservation(s, obs, bounds, None) {
        var c := Compared(tracker.logs[s.url], obs[s.url], tracker.width);
        assert ServerCompares(s, obs, c.value.0, c.value.1);
      }
      if s, recent, past :| s in servers && ServerCompares(s, obs, recent, past) && LostHistory(recent, past, bounds) {
        assert ServerObservation(s, obs, bounds, None);
      }
    }

    /**
      A server that has restarted and served nothing either makes the choice raise or has
      the least bound of all as its score: no server that was observed is preferred to it.
     */
    lemma RestartedIsPreferred(
      r: Result<(Server, Option<Score>), ChoiceError>, obs: map<string, seq<seq<real>>>, bounds: set<Score>,
      s: Server, past: seq<real>, low: Score
    )
      requires Consistent() && IsChoice(r) && Inf in bounds
      requires forall v :: v in servers ==> Observed(v, obs, bounds)
      requires s in servers && past != [] && ServerCompares(s, obs, [], past)
      requires low in bounds && forall b :: b in bounds ==> AtMost(low, b)
      ensures LostHistory([], past, bounds) ==> r.Err? && r.error.PercentileError?
      ensures !LostHistory([], past, bounds) ==> ServerObservation(s, obs, bounds, Some(low))
      ensures r.Ok? ==> r.value.1 == None || r.value.1 == Some(low)
    {
      UnservedObservation(s, obs, bounds, past, low);
      if LostHistory([], past, bounds) {
        NoScoreRaises(r, obs, bounds, s);
      } else {
        LeastScoreIsPreferred(r, obs, bounds, s, low);
      }
    }

    lemma NoScoreRaises(
      r: Result<(Server, Option<Score>), ChoiceError>, obs: map<string, seq<seq<real>>>, bounds: set<Score>, s: Server
    )
      requires Consistent() && IsChoice(r) && Inf in bounds && s in servers
      requires Observed(s, obs, bounds) && ServerObservation(s, obs, bounds, None)
      ensures r.Err? && r.error.PercentileError?
    {
      ObservationIsScore(s, obs, bounds, None);
      var i :| 0 <= i < |servers| && servers[i] == s;
      assert ServerScore(servers[i], None);
    }

    lemma ScoreBoundsChoice(r: Result<(Server, Option<Score>), ChoiceError>, s: Server, b: Score)
      requires Consistent() && IsChoice(r) && s in servers && s.url in tracker.logs && ServerScore(s, Some(b))
      ensures r.Ok? ==> AtMost(r.value.1.GetOr(NO_DATA), b)
    {
      var i :| 0 <= i < |servers| && servers[i] == s;
      assert ServerScore(servers[i], Some(b));
    }

    lemma LeastScoreIsPreferred(
      r: Result<(Server, Option<Score>), ChoiceError>, obs: map<string, seq<seq<real>>>, bounds: set<Score>,
      s: Server, low: Score
    )
      requires Consistent() && IsChoice(r) && Inf in bounds && s in servers
      requires forall v :: v in servers ==> Observed(v, obs, bounds)
      requires ServerObservation(s, obs, bounds, Some(low)) && forall b :: b in bounds ==> AtMost(low, b)
      ensures r.Ok? ==> r.value.1 == None || r.value.1 == Some(low)
    {
      if r.Ok? && r.value.1.Some? {
        ObservationIsScore(s, obs, bounds, Some(low));
        ScoreBoundsChoice(r, s, low);
        ObservationIsScore(r.value.0, obs, bounds, r.value.1);
        ObservedInBounds(r.value.0, obs, bounds, r.value.1.value);
      }
    }

    lemma UnservedObservation(
      s: Server, obs: map<string, seq<seq<real>>>, bounds: set<Score>, past: seq<real>, low: Score
    )
      requires tracker.width >= 1 && Observed(s, obs, bounds) && past != [] && ServerCompares(s, obs, [], past)
      requires low in bounds && forall b :: b in bounds ==> AtMost(low, b)
      ensures LostHistory([], past, bounds) ==> ServerObservation(s, obs, bounds, None)
      ensures !LostHistory([], past, bounds) ==> ServerObservation(s, obs, bounds, Some(low))
    {
      NothingServedLosesIff(past, bounds, low);
    }

    lemma ObservedInBounds(s: Server, obs: map<string, seq<seq<real>>>, bounds: set<Score>, b: Score)
      requires tracker.width >= 1 && Observed(s, obs, bounds) && ServerObservation(s, obs, bounds, Some(b))
      ensures b == NO_DATA || b in bounds
    {
    }

    // ---- servers that have not restarted ----

    ghost predicate Explained(s: Server, streams: map<string, Stream>, bounds: set<Score>)
      reads tracker
    {
      s.url in tracker.logs && s.url in streams && streams[s.url].Explains(tracker.logs[s.url], bounds)
    }

    /**
      The score of a server by its raw latencies: the sentinel if none was observed,
      else the percentile of its window.
     */
    ghost predicate ObservedScore(s: Server, streams: map<string, Stream>, bounds: set<Score>, b: Score)
      requires tracker.width >= 1 && Explained(s, streams, bounds)
      reads tracker
    {
      var log := tracker.logs[s.url];
      if streams[s.url].Total(log) == 0 then b == NO_DATA
      else IsPercentile(streams[s.url].Window(log, tracker.width), bounds, b)
    }

    /** The latencies of an unbroken life are one stream's prefixes. */
    ghost function Prefixes(streams: map<string, Stream>): map<string, seq<seq<real>>> {
      map url | url in streams :: streams[url].Prefixes()
    }

    lemma StreamIsObserved(s: Server, streams: map<string, Stream>, bounds: set<Score>)
      requires Explained(s, streams, bounds)
      ensures Observed(s, Prefixes(streams), bounds)
    {
    }

    lemma StreamObservation(s: Server, streams: map<string, Stream>, bounds: set<Score>, score: Option<Score>)
      requires tracker.width >= 1 && Explained(s, streams, bounds) && Observed(s, Prefixes(streams), bounds)
      requires Inf in bounds && NO_DATA !in bounds
      ensures ServerObservation(s, Prefixes(streams), bounds, score) <==>
              score.Some? && ObservedScore(s, streams, bounds, score.value)
    {
      ObservationIsScore(s, Prefixes(streams), bounds, score);
      if ServerScore(s, score) {
        StreamScore(s, streams, bounds, score);
      }
      if score.Some? && ObservedScore(s, streams, bounds, score.value) {
        ObservedIsScore(s, streams, bounds, score.value);
      }
    }

    /**
      For servers that have not restarted, from raw latencies to the choice: the
      percentile never raises, the score behind the choice is the chosen server's
      windowed percentile, no other server's is smaller, and none is reported exactly
      when some server has not been observed at all.
     */
    lemma ChosenIsFastestObserved(
      r: Result<(Server, Option<Score>), ChoiceError>, streams: map<string, Stream>, bounds: set<Score>
    )
      requires Consistent() && IsChoice(r)
      requires Inf in bounds && forall b :: b in bounds ==> Below(NO_DATA, b)
      requires forall s :: s in servers ==> Explained(s, streams, bounds)
      ensures r.Err? <==> servers == []
      ensures r.Ok? ==> r.value.0 in servers && ObservedScore(r.value.0, streams, bounds, r.value.1.GetOr(NO_DATA))
      ensures r.Ok? ==> forall s, b :: s in servers && ObservedScore(s, streams, bounds, b) ==>
                                         AtMost(r.value.1.GetOr(NO_DATA), b)
      ensures r.Ok? ==> (r.value.1 == None <==> exists s :: s in servers && ObservedScore(s, streams, bounds, NO_DATA))
    {
      StreamsAreObserved(streams, bounds);
      ChoiceByObservation(r, Prefixes(streams), bounds);
      if s :| s in servers && ObservedScore(s, streams, bounds, NO_DATA) {
        assert r.Ok? ==> AtMost(r.value.1.GetOr(NO_DATA), NO_DATA);
      }
    }

    lemma StreamsAreObserved(streams: map<string, Stream>, bounds: set<Score>)
      requires Consistent() && Inf in bounds && NO_DATA !in bounds
      requires forall s :: s in servers ==> Explained(s, streams, bounds)
      ensures forall s :: s in servers ==> Observed(s, Prefixes(streams), bounds)
      ensures forall s, score :: s in servers ==>
                (ServerObservation(s, Prefixes(streams), bounds, score) <==>
                 score.Some? && ObservedScore(s, streams, bounds, score.value))
    {
      forall s | s in servers
        ensures Observed(s, Prefixes(streams), bounds)
      {
        StreamIsObserved(s, streams, bounds);
      }
      forall s, score | s in servers
        ensures ServerObservation(s, Prefixes(streams), bounds, score) <==>
                score.Some? && ObservedScore(s, streams, bounds, score.value)
      {
        StreamObservation(s, streams, bounds, score);
      }
    }

    lemma StreamScore(s: Server, streams: map<string, Stream>, bounds: set<Score>, score: Option<Score>)
      requires tracker.width >= 1 && Explained(s, streams, bounds) && ServerScore(s, score)
      requires Inf in bounds && NO_DATA !in bounds
      ensures score.Some? && ObservedScore(s, streams, bounds, score.value)
    {
      streams[s.url].Refines(tracker.logs[s.url], bounds, tracker.width, score);
    }

    lemma ObservedIsScore(s: Server, streams: map<string, Stream>, bounds: set<Score>, b: Score)
      requires tracker.width >= 1 && Explained(s, streams, bounds) && ObservedScore(s, streams, bounds, b)
      requires Inf in bounds && NO_DATA !in bounds
      ensures ServerScore(s, Some(b))
    {
      var score := SomeScore(Diff(tracker.logs[s.url], tracker.width));
      StreamScore(s, streams, bounds, score);
      assert AtMost(b, score.value) && AtMost(score.value, b);
    }

    method ChooseServer() returns (r: Result<(Server, Option<Score>), ChoiceError>)
      requires Consistent()
      ensures IsChoice(r)
    {
      var scores := ScoreServers();
      if scores.None? {
        return Err(PercentileError);
      }
      ScoresAreUnique(scores.value);
      var urlLeastBusy, reported := LeastBusyUrl(tracker.urls, scores.value);
      for i := 0 to |servers|
        invariant forall j :: 0 <= j < i ==> Some(servers[j].url) != urlLeastBusy
      {
        if Some(servers[i].url) == urlLeastBusy {
          return Ok((servers[i], reported));
        }
      }
      return Err(ServerNotFound);
    }

    lemma ScoresAreUnique(scores: seq<Score>)
      requires tracker.width >= 1 && |scores| == |servers|
      requires forall i :: 0 <= i < |servers| ==>
                servers[i].url in tracker.logs && ServerScore(servers[i], Some(scores[i]))
      ensures forall i, b :: 0 <= i < |servers| && ServerScore(servers[i], b) ==> b == Some(scores[i])
    {
      forall i, b | 0 <= i < |servers| && ServerScore(servers[i], b)
        ensures b == Some(scores[i])
      {
        ScoreIsUnique(Diff(tracker.logs[servers[i].url], tracker.width), b, Some(scores[i]));
      }
    }
  }

  /**
    The choice on the scores: the last url without history if there is one, with no
    score reported, else any url of least score.
   */
  method LeastBusyUrl(urls: seq<string>, scores: seq<Score>) returns (url: Option<string>, reported: Option<Score>)
    requires |urls| == |scores|
    requires forall i :: 0 <= i < |scores| ==> AtMost(NO_DATA, scores[i])
    ensures url.None? <==> urls == []
    ensures url.Some? ==> exists i :: 0 <= i < |urls| && urls[i] == url.value && scores[i] == reported.GetOr(NO_DATA)
    ensures forall i :: 0 <= i < |scores| ==> AtMost(reported.GetOr(NO_DATA), scores[i])
    ensures reported != Some(NO_DATA)
    ensures url.Some? && reported.None? ==>
              exists i :: 0 <= i < |urls| && urls[i] == url.value && scores[i] == NO_DATA
                          && forall j :: i < j < |urls| ==> scores[j] != NO_DATA
  {
    url, reported := None, None;
    for i := 0 to |urls|
      invariant url.None? ==> forall j :: 0 <= j < i ==> scores[j] != NO_DATA
      invariant url.Some? ==>
                  exists k :: 0 <= k < i && urls[k] == url.value && scores[k] == NO_DATA
                              && forall j :: k < j < i ==> scores[j] != NO_DATA
    {
      if scores[i] == NO_DATA {
        url := Some(urls[i]); // the scan goes on: the last such url wins
      }
    }
    if urls != [] && url.None? {
      var least := LeastIndex(scores);
      url, reported := Some(urls[least]), Some(scores[least]);
    }
  }

  /** `least_busy`: the minimum of the scores, and any index that has it. */
  method LeastIndex(scores: seq<Score>) returns (pick: nat)
    requires scores != []
    ensures pick < |scores| && forall i :: 0 <= i < |scores| ==> AtMost(scores[pick], scores[i])
  {
    var least := scores[0];
    for i := 1 to |scores|
      invariant least in scores
      invariant forall j :: 0 <= j < i ==> AtMost(least, scores[j])
    {
      if !AtMost(least, scores[i]) {
        least := scores[i];
      }
    }
    pick :| 0 <= pick < |scores| && scores[pick] == least;
  }
}
