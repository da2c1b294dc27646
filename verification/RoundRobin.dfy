/**
  Round-robin selection. The index restarts at 0 on every update of the servers, even
  when the list is the same, so fairness is exact within an epoch and only bounded
  by the number of epochs over a longer run.
 */
module RoundRobinStrategy {
  import opened Wrappers
  import opened Messages

  // ---- the picks of one epoch ----

  /** The indices picked by k choices after a reset. */
  function Turns(k: nat, n: nat): seq<nat>
    requires n >= 1
  {
    if k == 0 then [] else Turns(k - 1, n) + [(k - 1) % n]
  }

  function Occurrences(picks: seq<nat>, i: nat): nat {
    if picks == [] then 0
    else Occurrences(picks[..|picks| - 1], i) + if picks[|picks| - 1] == i then 1 else 0
  }

  /** In k choices over n servers, server i is chosen floor(k/n) times, plus one iff i < k mod n. */
  lemma {:induction false} EpochShare(k: nat, n: nat, i: nat)
    requires i < n
    ensures Occurrences(Turns(k, n), i) == k / n + if i < k % n then 1 else 0
  {
    if k > 0 {
      EpochShare(k - 1, n, i);
      OneMore(k - 1, n);
      assert Turns(k, n)[..|Turns(k, n)| - 1] == Turns(k - 1, n);
    } else {
      SmallQuotient(n);
    }
  }

  lemma SmallQuotient(n: nat)
    requires n >= 1
    ensures 0 / n == 0 && 0 % n == 0
  {
  }

  /** Counting up by one, the remainder grows or wraps into the quotient. */
  lemma OneMore(k: nat, n: nat)
    requires n >= 1
    ensures k % n + 1 < n ==> (k + 1) / n == k / n && (k + 1) % n == k % n + 1
    ensures k % n + 1 == n ==> (k + 1) / n == k / n + 1 && (k + 1) % n == 0
    ensures (k % n + 1) % n == (k + 1) % n
  {
    var q, r := k / n, k % n;
    assert k == q * n + r;
    if r + 1 < n {
      Divides(k + 1, n, q, r + 1);
      Divides(r + 1, n, 0, r + 1);
    } else {
      assert k + 1 == (q + 1) * n;
      Divides(k + 1, n, q + 1, 0);
      Divides(n, n, 1, 0);
    }
  }

  lemma Divides(a: nat, n: nat, q: nat, r: nat)
    requires n >= 1 && a == q * n + r && r < n
    ensures a / n == q && a % n == r
  {
    var d := a / n - q;
    assert a == (a / n) * n + a % n;
    assert d * n == r - a % n;
    assert d >= 1 ==> d * n >= n;
    assert d <= -1 ==> d * n <= -1 * n;
  }

  // ---- many epochs ----

  /** The picks of a run whose epochs had these numbers of choices. */
  function Schedule(epochs: seq<nat>, n: nat): seq<nat>
    requires n >= 1
  {
    if epochs == [] then [] else Schedule(epochs[..|epochs| - 1], n) + Turns(epochs[|epochs| - 1], n)
  }

  /** An epoch of e choices stops after server i's turn and before server j's is over. */
  predicate StopsBetween(e: nat, n: nat, i: nat, j: nat)
    requires n >= 1
  {
    i < e % n <= j
  }

  /** The epochs that ended between server i's turn and server j's. */
  function Uneven(epochs: seq<nat>, n: nat, i: nat, j: nat): nat
    requires n >= 1
  {
    if epochs == [] then 0
    else Uneven(epochs[..|epochs| - 1], n, i, j) + if StopsBetween(epochs[|epochs| - 1], n, i, j) then 1 else 0
  }

  lemma {:induction false} OccurrencesAdd(a: seq<nat>, b: seq<nat>, i: nat)
    ensures Occurrences(a + b, i) == Occurrences(a, i) + Occurrences(b, i)
  {
    if b == [] {
      assert a + b == a;
    } else {
      OccurrencesAdd(a, b[..|b| - 1], i);
      assert (a + b)[..|a + b| - 1] == a + b[..|b| - 1];
    }
  }

  lemma {:induction false} UnevenAtMostEpochs(epochs: seq<nat>, n: nat, i: nat, j: nat)
    requires n >= 1
    ensures Uneven(epochs, n, i, j) <= |epochs|
  {
    if epochs != [] {
      UnevenAtMostEpochs(epochs[..|epochs| - 1], n, i, j);
    }
  }

  /**
    The skew between two servers is exactly the number of epochs that stopped between
    their turns: never negative for the earlier one, and at most the number of epochs.
   */
  lemma {:induction false} Skew(epochs: seq<nat>, n: nat, i: nat, j: nat)
    requires i < j < n
    ensures Occurrences(Schedule(epochs, n), i) - Occurrences(Schedule(epochs, n), j) == Uneven(epochs, n, i, j)
    ensures 0 <= Occurrences(Schedule(epochs, n), i) - Occurrences(Schedule(epochs, n), j) <= |epochs|
  {
    UnevenAtMostEpochs(epochs, n, i, j);
    if epochs != [] {
      var last := epochs[|epochs| - 1];
      Skew(epochs[..|epochs| - 1], n, i, j);
      OccurrencesAdd(Schedule(epochs[..|epochs| - 1], n), Turns(last, n), i);
      OccurrencesAdd(Schedule(epochs[..|epochs| - 1], n), Turns(last, n), j);
      EpochShare(last, n, i);
      EpochShare(last, n, j);
    }
  }

  /**
    The bound is reached exactly when every epoch stops between the two turns: one
    choice per epoch starves all but the first server.
   */
  lemma {:induction false} SkewIsReached(epochs: seq<nat>, n: nat, i: nat, j: nat)
    requires i < j < n
    ensures Occurrences(Schedule(epochs, n), i) - Occurrences(Schedule(epochs, n), j) == |epochs|
            <==> forall e :: e in epochs ==> StopsBetween(e, n, i, j)
  {
    Skew(epochs, n, i, j);
    AllUneven(epochs, n, i, j);
  }

  lemma {:induction false} AllUneven(epochs: seq<nat>, n: nat, i: nat, j: nat)
    requires n >= 1
    ensures Uneven(epochs, n, i, j) == |epochs| <==> forall e :: e in epochs ==> StopsBetween(e, n, i, j)
  {
    if epochs != [] {
      var rest := epochs[..|epochs| - 1];
      UnevenAtMostEpochs(rest, n, i, j);
      AllUneven(rest, n, i, j);
      assert epochs == rest + [epochs[|epochs| - 1]];
    }
  }

  /** A choice after k others in the last epoch adds the index k mod n. */
  lemma ScheduleGrows(epochs: seq<nat>, n: nat)
    requires n >= 1 && epochs != []
    ensures var last := |epochs| - 1;
            && Schedule(epochs[last := epochs[last] + 1], n) == Schedule(epochs, n) + [epochs[last] % n]
            && Schedule(epochs + [0], n) == Schedule(epochs, n)
  {
    var last := |epochs| - 1;
    var longer := epochs[last := epochs[last] + 1];
    assert longer[..last] == epochs[..last];
    assert (epochs + [0])[..|epochs|] == epochs;
  }

  lemma NothingPicked(n: nat)
    requires n >= 1
    ensures Schedule([0], n) == [] && 0 % n == 0
  {
    assert [0][..0] == [];
  }

  // ---- the strategy object ----

  class RoundRobin {
    var servers: seq<Server>
    var roundRobinIdx: nat
    // the choices made since the list last changed, and how many in each epoch
    ghost var picks: seq<nat>
    ghost var epochs: seq<nat>

    ghost predicate Valid()
      reads this
    {
      && epochs != []
      && (servers == [] ==> roundRobinIdx == 0 && picks == [])
      && (servers != [] ==> roundRobinIdx < |servers|
                            && roundRobinIdx == epochs[|epochs| - 1] % |servers|
                            && picks == Schedule(epochs, |servers|))
    }

    constructor (servers: seq<Server>)
      ensures Valid() && this.servers == servers && picks == [] && epochs == [0]
    {
      this.servers := servers;
      roundRobinIdx := 0;
      picks := [];
      epochs := [0];
      new;
      if servers != [] {
        NothingPicked(|servers|);
      }
    }

    /** The index restarts whether or not the list is a new one. */
    method UpdateServers(servers: seq<Server>)
      requires Valid()
      modifies this
      ensures Valid() && this.servers == servers && roundRobinIdx == 0
      ensures servers == old(this.servers) ==> picks == old(picks) && epochs == old(epochs) + [0]
      ensures servers != old(this.servers) ==> picks == [] && epochs == [0]
    {
      roundRobinIdx := 0;
      if servers != [] {
        NothingPicked(|servers|);
        ScheduleGrows(epochs, |servers|);
      }
      if servers == this.servers {
        epochs := epochs + [0];
      } else {
        picks := [];
        epochs := [0];
      }
      this.servers := servers;
    }

    method ChooseServer() returns (r: Result<Server, ()>)
      requires Valid()
      modifies this`roundRobinIdx, this`picks, this`epochs
      ensures Valid()
      ensures r.Err? <==> servers == []
      ensures r.Err? ==> picks == old(picks) && epochs == old(epochs)
      ensures r.Ok? ==> |picks| == |old(picks)| + 1 && picks == old(picks) + [picks[|old(picks)|]]
      ensures r.Ok? ==> picks[|old(picks)|] < |servers| && r.value == servers[picks[|old(picks)|]]
      ensures r.Ok? ==> epochs == old(epochs)[|old(epochs)| - 1 := old(epochs)[|old(epochs)| - 1] + 1]
    {
      if servers != [] {
        var choice := servers[roundRobinIdx];
        var last := |epochs| - 1;
        OneMore(epochs[last], |servers|);
        ScheduleGrows(epochs, |servers|);
        picks := picks + [roundRobinIdx];
        epochs := epochs[last := epochs[last] + 1];
        roundRobinIdx := (roundRobinIdx + 1) % |servers|;
        return Ok(choice);
      }
      return Err(());
    }

    /** What a reader of the object may conclude at any time. */
    lemma Fairness(i: nat, j: nat)
      requires Valid() && i < j < |servers|
      ensures Occurrences(picks, i) - Occurrences(picks, j) == Uneven(epochs, |servers|, i, j)
      ensures 0 <= Occurrences(picks, i) - Occurrences(picks, j) <= |epochs|
    {
      Skew(epochs, |servers|, i, j);
    }
  }
}
