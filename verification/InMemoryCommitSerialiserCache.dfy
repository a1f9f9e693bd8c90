/** The bounded in-memory cache that lets a node order commits without reading the store. */
module InMemoryCommitSerialiserCache {
  import opened Prelude
  import opened CommitStore

  /** Keys are the tokens of the commits they map to. */
  ghost predicate WellKeyed(m: map<int, Commit>) {
    forall t :: t in m ==> m[t].token == t
  }

  // ------------------------------------------------------------------ trimming: the K largest tokens

  lemma MinExists(keys: set<int>)
    requires keys != {}
    ensures exists k :: k in keys && forall x :: x in keys ==> k <= x
    decreases |keys|
  {
    var a := Pick(keys);
    var rest := keys - {a};
    assert keys == rest + {a};
    if rest == {} {
      assert a in keys && forall x :: x in keys ==> a <= x;
    } else {
      MinExists(rest);
      var b :| b in rest && forall x :: x in rest ==> b <= x;
      var k := if a < b then a else b;
      assert k in keys && forall x :: x in keys ==> k <= x;
    }
  }

  function MinKey(keys: set<int>): (k: int)
    requires keys != {}
    ensures k in keys
    ensures forall x :: x in keys ==> k <= x
  {
    MinExists(keys);
    var k :| k in keys && forall x :: x in keys ==> k <= x;
    k
  }

  /** Drops smallest tokens until at most capacity commits are left. */
  function Trim(m: map<int, Commit>, capacity: nat): map<int, Commit>
    decreases |m|
  {
    if |m| <= capacity then m
    else
      assert m.Keys != {};
      var k := MinKey(m.Keys);
      assert |(m - {k}).Keys| == |m.Keys - {k}|;
      Trim(m - {k}, capacity)
  }

  function CacheStep(m: map<int, Commit>, c: Commit, capacity: nat): (r: map<int, Commit>)
    ensures WellKeyed(m) ==> WellKeyed(r)
    ensures |r| <= capacity
  {
    TrimIsTopK(m[c.token := c], capacity);
    Trim(m[c.token := c], capacity)
  }

  /** The cache after a history of Cache calls, oldest first. */
  function CacheAll(history: seq<Commit>, capacity: nat): map<int, Commit> {
    if history == [] then map[]
    else CacheStep(CacheAll(history[..|history| - 1], capacity), history[|history| - 1], capacity)
  }

  /** Every token of the history with the commit cached last under it. */
  function Latest(history: seq<Commit>): map<int, Commit> {
    if history == [] then map[]
    else var c := history[|history| - 1]; Latest(history[..|history| - 1])[c.token := c]
  }

  /** keys are the `capacity` largest of all, or all of them when there are no more. */
  ghost predicate TopKeys(keys: set<int>, all: set<int>, capacity: nat) {
    && keys <= all
    && |keys| == (if |all| <= capacity then |all| else capacity)
    && forall t, u :: t in keys && u in all && u !in keys ==> u < t
  }

  /** m holds the `capacity` largest keys of all, with the values all gives them. */
  ghost predicate IsTopK(m: map<int, Commit>, all: map<int, Commit>, capacity: nat) {
    && TopKeys(m.Keys, all.Keys, capacity)
    && forall t :: t in m ==> t in all && m[t] == all[t]
  }

  lemma {:induction false} TrimIsTopK(m: map<int, Commit>, capacity: nat)
    ensures IsTopK(Trim(m, capacity), m, capacity)
    decreases |m|
  {
    if capacity < |m| {
      assert m.Keys != {};
      var k := MinKey(m.Keys);
      assert (m - {k}).Keys == m.Keys - {k};
      TrimIsTopK(m - {k}, capacity);
    }
  }

  lemma TopKeysStep(keys: set<int>, all: set<int>, t: int, kept: set<int>, capacity: nat)
    requires TopKeys(keys, all, capacity) && TopKeys(kept, keys + {t}, capacity)
    ensures TopKeys(kept, all + {t}, capacity)
  {
    var n := keys + {t};
    SubsetSize(keys, all);
    SubsetSize(keys, n);
    SubsetSize(n, all + {t});
    SubsetSize(all, all + {t});
    SubsetSize(kept, n);
    assert keys == all || |keys| == capacity;
    forall x, u | x in kept && u in all + {t} && u !in kept ensures u < x {
      if u !in n && x == t && x < u {
        NotKept(keys, t, u, kept, capacity);
      }
    }
  }

  /** A token below every cached one does not survive the trim of a full cache. */
  lemma NotKept(keys: set<int>, t: int, u: int, kept: set<int>, capacity: nat)
    requires |keys| == capacity && TopKeys(kept, keys + {t}, capacity)
    requires t < u && forall y :: y in keys ==> u < y
    ensures t !in kept
  {
    assert |keys + {t}| == |keys| + 1;
    if keys <= kept {
      SubsetSize(keys, kept);
    } else {
      var y := PickMissing(keys, kept);
    }
  }

  /** Caching one commit keeps the top K, also when the commit was evicted before. */
  lemma CacheStepTopK(m: map<int, Commit>, all: map<int, Commit>, c: Commit, capacity: nat)
    requires IsTopK(m, all, capacity)
    ensures IsTopK(CacheStep(m, c, capacity), all[c.token := c], capacity)
  {
    var n := m[c.token := c];
    var r := Trim(n, capacity);
    TrimIsTopK(n, capacity);
    assert n.Keys == m.Keys + {c.token} && all[c.token := c].Keys == all.Keys + {c.token};
    TopKeysStep(m.Keys, all.Keys, c.token, r.Keys, capacity);
    forall t | t in r ensures t in all[c.token := c] && r[t] == all[c.token := c][t] {
      assert t in n && r[t] == n[t];
    }
  }

  /** Online top-K: after any sequence of Cache calls the cache holds exactly the largest distinct
      tokens ever cached, each with its most recently cached commit. */
  lemma {:induction false} OnlineTopK(history: seq<Commit>, capacity: nat)
    ensures IsTopK(CacheAll(history, capacity), Latest(history), capacity)
  {
    if history != [] {
      var before := history[..|history| - 1];
      OnlineTopK(before, capacity);
      CacheStepTopK(CacheAll(before, capacity), Latest(before), history[|history| - 1], capacity);
    }
  }

  /** The top K of a map is unique, so OnlineTopK says what the cache is, not just some of what it holds. */
  lemma TopKUnique(m: map<int, Commit>, n: map<int, Commit>, all: map<int, Commit>, capacity: nat)
    requires IsTopK(m, all, capacity) && IsTopK(n, all, capacity)
    ensures m == n
  {
    if m.Keys <= n.Keys {
      SubsetSize(m.Keys, n.Keys);
    } else {
      var x := PickMissing(m.Keys, n.Keys);
      if !(n.Keys <= m.Keys) {
        var y := PickMissing(n.Keys, m.Keys);
      }
      SubsetSize(n.Keys, m.Keys);
    }
    if m != n {
      var t := PickDifference(m, n);
    }
  }

  lemma CacheStepContents(m: map<int, Commit>, c: Commit, capacity: nat)
    ensures forall t :: t in CacheStep(m, c, capacity) ==>
      (t == c.token && CacheStep(m, c, capacity)[t] == c) || (t in m && CacheStep(m, c, capacity)[t] == m[t])
  {
    TrimIsTopK(m[c.token := c], capacity);
  }

  // ------------------------------------------------------------------ the run after a checkpoint

  ghost function KeysAfter(m: map<int, Commit>, c: int): set<int> {
    set t | t in m.Keys && c < t
  }

  /** GetCommitsAfter: follows checkpoint + 1 through the cache until a token is missing. */
  function Run(m: map<int, Commit>, c: int): seq<OrderedCommit>
    requires WellKeyed(m)
    decreases KeysAfter(m, c)
  {
    if c + 1 !in m then []
    else
      assert c + 1 in KeysAfter(m, c) && c + 1 !in KeysAfter(m, c + 1);
      [OrderedCommit(m[c + 1], c)] + Run(m, m[c + 1].token)
  }

  /** run is c+1, c+2, ... straight out of m. */
  ghost predicate Consecutive(m: map<int, Commit>, c: int, run: seq<OrderedCommit>) {
    forall i :: 0 <= i < |run| ==> run[i].previous == c + i && c + i + 1 in m && run[i].commit == m[c + i + 1]
  }

  /** The run is exactly c+1 .. c+n, all cached, c+n+1 is not cached, and n is at most the cache's size. */
  lemma {:induction false} MaximalRun(m: map<int, Commit>, c: int)
    requires WellKeyed(m)
    ensures Consecutive(m, c, Run(m, c))
    ensures c + |Run(m, c)| + 1 !in m
    ensures |Run(m, c)| <= |KeysAfter(m, c)| <= |m|
    decreases KeysAfter(m, c)
  {
    SubsetSize(KeysAfter(m, c), m.Keys);
    if c + 1 in m {
      assert c + 1 in KeysAfter(m, c) && c + 1 !in KeysAfter(m, c + 1);
      assert KeysAfter(m, c) == KeysAfter(m, c + 1) + {c + 1};
      MaximalRun(m, c + 1);
      var rest := Run(m, c + 1);
      assert Run(m, c) == [OrderedCommit(m[c + 1], c)] + rest;
      forall i | 0 < i < |Run(m, c)|
        ensures Run(m, c)[i].previous == c + i && c + i + 1 in m && Run(m, c)[i].commit == m[c + i + 1]
      {
        assert Run(m, c)[i] == rest[i - 1];
        assert rest[i - 1].previous == (c + 1) + (i - 1);
      }
    }
  }

  /** Every cached commit is in the store. */
  ghost predicate CachedFrom(m: map<int, Commit>, s: seq<Commit>) {
    WellKeyed(m) && forall t :: t in m ==> m[t] in s
  }

  lemma CachedIsTruthful(m: map<int, Commit>, s: seq<Commit>, c: int)
    requires CachedFrom(m, s) && c + 1 in m
    ensures Truthful(s, OrderedCommit(m[c + 1], c))
  {
  }

  lemma ReadOneMore(s: seq<Commit>, o: OrderedCommit)
    requires IsStore(s) && Truthful(s, o)
    ensures Chain(o.previous, GetFrom(s, o.previous)) == [o] + Chain(o.commit.token, GetFrom(s, o.commit.token))
  {
    TruthfulIsNext(s, o);
    assert GetFrom(s, o.previous) == [o.commit] + GetFrom(s, o.commit.token);
  }

  lemma AgreesOneMore(m: map<int, Commit>, s: seq<Commit>, c: int)
    requires IsStore(s) && CachedFrom(m, s) && c + 1 in m
    requires Run(m, c + 1) <= Chain(c + 1, GetFrom(s, c + 1))
    ensures Run(m, c) <= Chain(c, GetFrom(s, c))
  {
    CachedIsTruthful(m, s, c);
    ReadOneMore(s, OrderedCommit(m[c + 1], c));
  }

  /** The fast path agrees with the slow one: what the cache orders is, pair for pair, a prefix of what
      reading the store after the same checkpoint gives. */
  lemma {:induction false} CacheAgreesWithStore(m: map<int, Commit>, s: seq<Commit>, c: int)
    requires IsStore(s) && CachedFrom(m, s)
    ensures Run(m, c) <= Chain(c, GetFrom(s, c))
    decreases KeysAfter(m, c)
  {
    if c + 1 in m {
      assert c + 1 in KeysAfter(m, c) && c + 1 !in KeysAfter(m, c + 1);
      CacheAgreesWithStore(m, s, c + 1);
      AgreesOneMore(m, s, c);
    }
  }

  // ------------------------------------------------------------------ the cache itself

  class CommitCache {
    var commits: map<int, Commit>
    const maxNumberOfCommitsToCache: nat

    constructor (maxNumberOfCommitsToCache: nat)
      ensures commits == map[]
      ensures this.maxNumberOfCommitsToCache == maxNumberOfCommitsToCache
    {
      this.commits := map[];
      this.maxNumberOfCommitsToCache := maxNumberOfCommitsToCache;
    }

    method Cache(commit: Commit)
      modifies this
      ensures commits == CacheStep(old(commits), commit, maxNumberOfCommitsToCache)
    {
      commits := commits[commit.token := commit];
      TrimCache();
    }

    method TrimCache()
      modifies this
      ensures commits == Trim(old(commits), maxNumberOfCommitsToCache)
      ensures IsTopK(commits, old(commits), maxNumberOfCommitsToCache)
    {
      TrimIsTopK(commits, maxNumberOfCommitsToCache);
      while maxNumberOfCommitsToCache < |commits|
        invariant Trim(commits, maxNumberOfCommitsToCache) == Trim(old(commits), maxNumberOfCommitsToCache)
        decreases |commits|
      {
        assert commits.Keys != {};
        var minKey := MinKey(commits.Keys);
        assert |(commits - {minKey}).Keys| == |commits.Keys - {minKey}|;
        commits := commits - {minKey};
      }
    }

    function RetrieveNextFromCache(checkpoint: int): (r: seq<OrderedCommit>)
      reads this
    {
      if checkpoint + 1 in commits then [OrderedCommit(commits[checkpoint + 1], checkpoint)] else []
    }

    method GetCommitsAfter(checkpoint: int) returns (results: seq<OrderedCommit>)
      requires WellKeyed(commits)
      ensures results == Run(commits, checkpoint)
    {
      results := GetNextOrderedCommitsRecursively(checkpoint, []);
    }

    method GetNextOrderedCommitsRecursively(checkpoint: int, results: seq<OrderedCommit>)
      returns (r: seq<OrderedCommit>)
      requires WellKeyed(commits)
      ensures r == results + Run(commits, checkpoint)
      decreases KeysAfter(commits, checkpoint)
    {
      var next := RetrieveNextFromCache(checkpoint);
      if next == [] {
        return results;
      }
      assert checkpoint + 1 in KeysAfter(commits, checkpoint);
      assert checkpoint + 1 !in KeysAfter(commits, checkpoint + 1);
      r := GetNextOrderedCommitsRecursively(next[0].commit.token, results + [next[0]]);
    }
  }
}
