/**
  Queue names and what a sender recovers from them: the models it lists are read off
  the names of the broker's queues.
 */
module QueueNames {
  import opened Wrappers

  function SharedName(model: string): string {
    model
  }

  function PrivateName(model: string, organization: string): string {
    model + "_" + organization + "_private"
  }

  function CompletedName(model: string): string {
    model + "_completed"
  }

  predicate StartsWith(s: string, prefix: string) {
    |prefix| <= |s| && s[..|prefix|] == prefix
  }

  predicate EndsWith(s: string, suffix: string) {
    |suffix| <= |s| && s[|s| - |suffix|..] == suffix
  }

  // ---- names that clash ----

  /**
    Two private queues share a name exactly when the longer model name takes an
    underscore and the beginning of the shorter one's organization with it.
   */
  lemma PrivateNamesClashIff(m: string, o: string, m': string, o': string)
    requires |m| <= |m'|
    ensures PrivateName(m, o) == PrivateName(m', o') <==>
            (m == m' && o == o') || (exists x :: m' == m + "_" + x && o == x + "_" + o')
  {
    var left, right := m + "_" + o, m' + "_" + o';
    assert PrivateName(m, o) == left + "_private" && PrivateName(m', o') == right + "_private";
    SameSuffix(left, right, "_private");
    if left == right {
      assert left[..|m|] == right[..|m|] == m'[..|m|];
      if |m| == |m'| {
        assert left[|m| + 1..] == o && right[|m| + 1..] == o';
      } else {
        var x := m'[|m| + 1..];
        assert left[|m|] == '_' && right[|m|] == m'[|m|];
        assert m' == m + "_" + x;
        assert right == m + "_" + (x + "_" + o');
        assert left[|m| + 1..] == o && right[|m| + 1..] == x + "_" + o';
      }
    }
    if x :| m' == m + "_" + x && o == x + "_" + o' {
      assert left == right;
    }
  }

  lemma SameSuffix(a: string, b: string, suffix: string)
    ensures a + suffix == b + suffix <==> a == b
  {
    if a + suffix == b + suffix {
      assert |a| == |b|;
      assert a == (a + suffix)[..|a|] && b == (b + suffix)[..|b|];
    }
  }

  /** Kebab case: what the documentation asks of model names. */
  predicate NoUnderscore(s: string) {
    '_' !in s
  }

  lemma SplitAtUnderscore(m: string, rest: string, m': string, rest': string)
    requires NoUnderscore(m) && NoUnderscore(m')
    requires m + "_" + rest == m' + "_" + rest'
    ensures m == m' && rest == rest'
  {
    var left, right := m + "_" + rest, m' + "_" + rest';
    ShorterDiffers(m, rest, m', rest');
    ShorterDiffers(m', rest', m, rest);
    assert m == left[..|m|] && m' == right[..|m|];
    assert rest == left[|m| + 1..] && rest' == right[|m| + 1..];
  }

  lemma ShorterDiffers(m: string, rest: string, m': string, rest': string)
    requires NoUnderscore(m')
    ensures |m| < |m'| ==> m + "_" + rest != m' + "_" + rest'
  {
    if |m| < |m'| {
      assert (m + "_" + rest)[|m|] == '_' && (m' + "_" + rest')[|m|] == m'[|m|];
    }
  }

  datatype Queue =
    | SharedQueue(model: string)
    | PrivateQueue(model: string, organization: string)
    | CompletedQueue(model: string)

  function NameOf(q: Queue): string {
    match q
    case SharedQueue(model) => SharedName(model)
    case PrivateQueue(model, organization) => PrivateName(model, organization)
    case CompletedQueue(model) => CompletedName(model)
  }

  /** What follows the model and an underscore. */
  function Tail(q: Queue): string
    requires !q.SharedQueue?
  {
    if q.PrivateQueue? then q.organization + "_private" else "completed"
  }

  lemma NameSplits(q: Queue)
    ensures q.SharedQueue? ==> NameOf(q) == q.model
    ensures !q.SharedQueue? ==> NameOf(q) == q.model + "_" + Tail(q) && '_' in NameOf(q)
  {
    if !q.SharedQueue? {
      assert NameOf(q) == q.model + "_" + Tail(q);
      assert NameOf(q)[|q.model|] == '_';
    }
  }

  /** With model names free of underscores, no two queues share a name, whatever the organizations. */
  lemma NamesAreDistinct(q: Queue, r: Queue)
    requires NoUnderscore(q.model) && NoUnderscore(r.model)
    ensures NameOf(q) == NameOf(r) <==> q == r
  {
    NameSplits(q);
    NameSplits(r);
    if NameOf(q) == NameOf(r) && !q.SharedQueue? && !r.SharedQueue? {
      SplitAtUnderscore(q.model, Tail(q), r.model, Tail(r));
      TailsDiffer(q, r);
    }
  }

  lemma TailsDiffer(q: Queue, r: Queue)
    requires !q.SharedQueue? && !r.SharedQueue? && q.model == r.model
    ensures Tail(q) == Tail(r) ==> q == r
  {
    assert forall p: Queue :: !p.SharedQueue? ==> Tail(p) != "" && (Tail(p)[|Tail(p)| - 1] == 'e' <==> p.PrivateQueue?);
    if q.PrivateQueue? && r.PrivateQueue? {
      SameSuffix(q.organization, r.organization, "_private");
    }
  }

  // ---- listing the models ----

  /** The filter over binding destinations. */
  predicate IsListed(name: string) {
    !StartsWith(name, "amq") && !EndsWith(name, "completed") && !EndsWith(name, "private")
  }

  function Listed(names: seq<string>): seq<string> {
    if names == [] then []
    else Listed(names[..|names| - 1]) + if IsListed(names[|names| - 1]) then [names[|names| - 1]] else []
  }

  /** The affixes in full: a name starts, or ends, with a word and something follows, or precedes. */
  lemma AffixMeaning(s: string, word: string)
    ensures StartsWith(s, word) <==> exists rest :: s == word + rest
    ensures EndsWith(s, word) <==> exists rest :: s == rest + word
  {
    if StartsWith(s, word) {
      assert s == word + s[|word|..];
    }
    if EndsWith(s, word) {
      assert s == s[..|s| - |word|] + word;
    }
  }

  lemma {:induction false} ListedMeaning(names: seq<string>, name: string)
    ensures name in Listed(names) <==>
              name in names && !StartsWith(name, "amq") && !EndsWith(name, "completed") && !EndsWith(name, "private")
  {
    if names != [] {
      ListedMeaning(names[..|names| - 1], name);
      assert names == names[..|names| - 1] + [names[|names| - 1]];
    }
  }

  /** Every binding that passes is listed, once for each time it is bound and in order. */
  lemma ListedOne(name: string)
    ensures Listed([name]) ==
              if StartsWith(name, "amq") || EndsWith(name, "completed") || EndsWith(name, "private") then [] else [name]
  {
    assert [name][..0] == [];
  }

  lemma {:induction false} ListedInOrder(before: seq<string>, after: seq<string>)
    ensures Listed(before + after) == Listed(before) + Listed(after)
  {
    if after == [] {
      assert before + after == before;
    } else {
      var n := |after| - 1;
      ListedInOrder(before, after[..n]);
      assert (before + after)[..|before + after| - 1] == before + after[..n];
    }
  }

  lemma OnlySharedNamesPass(q: Queue)
    ensures IsListed(NameOf(q)) ==> q.SharedQueue?
  {
    match q
    case SharedQueue(_) =>
    case PrivateQueue(model, organization) => SuffixOfSum(model + "_" + organization + "_", "private", NameOf(q));
    case CompletedQueue(model) => SuffixOfSum(model + "_", "completed", NameOf(q));
  }

  lemma SuffixOfSum(a: string, suffix: string, s: string)
    requires s == a + suffix
    ensures EndsWith(s, suffix)
  {
    assert s[|a|..] == suffix;
  }

  /**
    The broker holds the queues of these models, and callback queues, which it names
    itself with the prefix "amq".
   */
  ghost predicate BrokerHolds(names: seq<string>, models: set<string>) {
    && (forall m :: m in models ==> SharedName(m) in names)
    && (forall name :: name in names ==>
          StartsWith(name, "amq") || exists q: Queue :: name == NameOf(q) && q.model in models)
  }

  /**
    The listing is exactly the models if and only if no model's own name falls to the
    filter: starting with "amq", or ending with "completed" or "private".
   */
  lemma ListingIsTheModelsIff(names: seq<string>, models: set<string>)
    requires BrokerHolds(names, models)
    ensures (forall m :: m in Listed(names) <==> m in models) <==> Passing(models) == models
  {
    forall m
      ensures m in Listed(names) <==> m in Passing(models)
    {
      ListedIsModel(names, models, m);
    }
    SameMembersIff(Listed(names), models, Passing(models));
  }

  /** The names the filter keeps. */
  function Passing(models: set<string>): set<string> {
    set m | m in models && !StartsWith(m, "amq") && !EndsWith(m, "completed") && !EndsWith(m, "private")
  }

  lemma SameMembersIff(listed: seq<string>, models: set<string>, passing: set<string>)
    requires passing <= models && forall m :: m in listed <==> m in passing
    ensures (forall m :: m in listed <==> m in models) <==> passing == models
  {
  }

  lemma ListedIsModel(names: seq<string>, models: set<string>, m: string)
    requires BrokerHolds(names, models)
    ensures m in Listed(names) <==> m in Passing(models)
  {
    ListedMeaning(names, m);
    if m in Listed(names) {
      var q: Queue :| m == NameOf(q) && q.model in models;
      OnlySharedNamesPass(q);
    }
  }

  // ---- the sender's cached list ----

  class ModelRegistry {
    var models: seq<string>

    constructor ()
      ensures models == []
    {
      models := [];
    }

    /** `get_models`; `bindings` is what the broker's management interface answers. */
    method GetModels(bindings: seq<string>)
      modifies this
      ensures models == Listed(bindings)
    {
      var listed: seq<string> := [];
      for i := 0 to |bindings|
        invariant listed == Listed(bindings[..i])
      {
        assert bindings[..i + 1][..i] == bindings[..i];
        if IsListed(bindings[i]) {
          listed := listed + [bindings[i]];
        }
      }
      assert bindings[..|bindings|] == bindings;
      models := listed;
    }

    /** `get_model_by_id`: the list is fetched again only for an id it does not have. */
    method GetModelById(id: string, bindings: seq<string>) returns (r: Option<string>)
      modifies this
      ensures models == if id in old(models) then old(models) else Listed(bindings)
      ensures r == if id in old(models) || (id in bindings && IsListed(id)) then Some(id) else None
    {
      if id !in models {
        GetModels(bindings);
      }
      ListedMeaning(bindings, id);
      for i := 0 to |models|
        invariant id !in models[..i]
      {
        assert models[..i + 1] == models[..i] + [models[i]];
        if models[i] == id {
          return Some(models[i]);
        }
      }
      assert models[..|models|] == models;
      return None;
    }
  }
}
