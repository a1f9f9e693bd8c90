/** The append-only commit store, and what "read the store in order" means.
    Every ordering property of the other modules is stated against it. */
module CommitStore {

  /** An element of a commit's event list; the list may hold nulls, and event messages whose body is null. */
  datatype Event = NullEvent | NullBody | Event(kind: nat, body: int)

  datatype Commit = Commit(token: int, id: int, events: seq<Event>)

  /** OrderedCommitNotification: a commit and the checkpoint immediately before it. */
  datatype OrderedCommit = OrderedCommit(commit: Commit, previous: int)

  /** Commits become visible in ascending order of positive tokens; gaps are allowed. */
  ghost predicate IsStore(s: seq<Commit>) {
    && (forall i :: 0 <= i < |s| ==> 0 < s[i].token)
    && (forall i, j :: 0 <= i < j < |s| ==> s[i].token < s[j].token)
  }

  function Head(s: seq<Commit>): int {
    if s == [] then 0 else s[|s| - 1].token
  }

  ghost predicate IsCheckpoint(s: seq<Commit>, c: int) {
    c == 0 || exists i :: 0 <= i < |s| && s[i].token == c
  }

  /** The number of commits at or before checkpoint c. */
  function Position(s: seq<Commit>, c: int): (n: nat)
    requires IsStore(s)
    ensures n <= |s|
    ensures forall i :: 0 <= i < n ==> s[i].token <= c
    ensures forall i :: n <= i < |s| ==> c < s[i].token
  {
    if s == [] then 0
    else if s[|s| - 1].token <= c then |s|
    else Position(s[..|s| - 1], c)
  }

  /** IPersistStreams.GetFrom: the commits after c, ascending; c itself is excluded. */
  function GetFrom(s: seq<Commit>, c: int): seq<Commit>
    requires IsStore(s)
  {
    s[Position(s, c)..]
  }

  /** The commits whose tokens lie in (after, upTo]. */
  function Slice(s: seq<Commit>, after: int, upTo: int): seq<Commit>
    requires IsStore(s)
  {
    if after <= upTo then s[Between(s, after, upTo)..Position(s, upTo)] else []
  }

  /** Position(s, after), with the bound that makes a slice well formed. */
  function Between(s: seq<Commit>, after: int, upTo: int): (n: nat)
    requires IsStore(s) && after <= upTo
    ensures n == Position(s, after) <= Position(s, upTo)
  {
    PositionMonotone(s, after, upTo);
    Position(s, after)
  }

  lemma PositionMonotone(s: seq<Commit>, a: int, b: int)
    requires IsStore(s) && a <= b
    ensures Position(s, a) <= Position(s, b)
  {
    var n := Position(s, b);
    assert n < |s| ==> b < s[n].token;
  }

  /** Position is the only index that splits the store at c. */
  lemma PositionIs(s: seq<Commit>, c: int, n: nat)
    requires IsStore(s) && n <= |s|
    requires 0 < n ==> s[n - 1].token <= c
    requires n < |s| ==> c < s[n].token
    ensures Position(s, c) == n
  {
  }

  /** A pair is truthful when nothing in the store lies between its previous checkpoint and its commit. */
  ghost predicate Truthful(s: seq<Commit>, o: OrderedCommit) {
    && o.commit in s
    && o.previous < o.commit.token
    && forall i :: 0 <= i < |s| ==> s[i].token <= o.previous || o.commit.token <= s[i].token
  }

  /** Pairs each commit with the checkpoint before it. */
  function Chain(previous: int, commits: seq<Commit>): (r: seq<OrderedCommit>)
    ensures |r| == |commits|
    ensures forall i {:trigger r[i]} :: 0 <= i < |r| ==>
      r[i] == OrderedCommit(commits[i], if i == 0 then previous else commits[i - 1].token)
  {
    seq(|commits|, i requires 0 <= i < |commits| =>
      OrderedCommit(commits[i], if i == 0 then previous else commits[i - 1].token))
  }

  /** The checkpoint reached by reading commits on from previous. */
  function EndOf(previous: int, commits: seq<Commit>): int {
    if commits == [] then previous else commits[|commits| - 1].token
  }

  lemma ChainAppend(previous: int, a: seq<Commit>, b: seq<Commit>)
    ensures Chain(previous, a + b) == Chain(previous, a) + Chain(EndOf(previous, a), b)
  {
  }

  // ------------------------------------------------------------------ what a pair says about the store

  lemma TruthfulIsFirstAfter(s: seq<Commit>, o: OrderedCommit)
    requires IsStore(s) && Truthful(s, o)
    ensures Position(s, o.previous) < |s| && s[Position(s, o.previous)] == o.commit
  {
    var n := Position(s, o.previous);
    var j :| 0 <= j < |s| && s[j] == o.commit;
    assert n <= j;
    assert s[n].token <= o.previous || o.commit.token <= s[n].token;
    assert j == n;
  }

  lemma FirstAfterIsTruthful(s: seq<Commit>, o: OrderedCommit)
    requires IsStore(s) && Position(s, o.previous) < |s| && s[Position(s, o.previous)] == o.commit
    ensures Truthful(s, o)
  {
    var n := Position(s, o.previous);
    assert s[n] in s;
    forall i | 0 <= i < |s| ensures s[i].token <= o.previous || o.commit.token <= s[i].token {
      assert n < i ==> s[n].token < s[i].token;
    }
  }

  /** A pair is truthful exactly when its commit is the first one after its previous checkpoint. */
  lemma TruthfulIsNext(s: seq<Commit>, o: OrderedCommit)
    requires IsStore(s)
    ensures Truthful(s, o) <==> Position(s, o.previous) < |s| && s[Position(s, o.previous)] == o.commit
    ensures Truthful(s, o) ==> Position(s, o.commit.token) == Position(s, o.previous) + 1
  {
    if Truthful(s, o) {
      TruthfulIsFirstAfter(s, o);
    }
    var n := Position(s, o.previous);
    if n < |s| && s[n] == o.commit {
      FirstAfterIsTruthful(s, o);
      PositionOfToken(s, n);
    }
  }

  lemma PositionOfToken(s: seq<Commit>, i: nat)
    requires IsStore(s) && i < |s|
    ensures Position(s, s[i].token) == i + 1
  {
    PositionIs(s, s[i].token, i + 1);
  }

  /** Two truthful pairs after the same checkpoint carry the same commit. */
  lemma SamePreviousSameCommit(s: seq<Commit>, a: OrderedCommit, b: OrderedCommit)
    requires IsStore(s) && Truthful(s, a) && Truthful(s, b) && a.previous == b.previous
    ensures a.commit == b.commit
  {
    TruthfulIsNext(s, a);
    TruthfulIsNext(s, b);
  }

  /** A checkpoint past a pair's previous one has already reached the pair's commit. */
  lemma PastPreviousReachesCommit(s: seq<Commit>, o: OrderedCommit, c: int)
    requires Truthful(s, o) && IsCheckpoint(s, c) && o.previous < c && (c != 0 || 0 <= o.previous)
    ensures o.commit.token <= c
  {
    if c != 0 {
      var i :| 0 <= i < |s| && s[i].token == c;
    }
  }

  lemma AtMostHead(s: seq<Commit>, c: int)
    requires IsStore(s) && IsCheckpoint(s, c)
    ensures 0 <= c <= Head(s)
  {
  }

  lemma TokenIsCheckpoint(s: seq<Commit>, c: Commit)
    requires IsStore(s) && c in s
    ensures IsCheckpoint(s, c.token) && 0 < c.token <= Head(s)
  {
    var i :| 0 <= i < |s| && s[i] == c;
  }

  /** Stepping to a truthful pair's commit extends a slice by exactly that commit. */
  lemma SliceStep(s: seq<Commit>, after: int, o: OrderedCommit)
    requires IsStore(s) && Truthful(s, o) && after <= o.previous
    ensures Slice(s, after, o.commit.token) == Slice(s, after, o.previous) + [o.commit]
  {
    TruthfulIsNext(s, o);
  }

  // ------------------------------------------------------------------ linked runs of pairs

  /** Each pair points back to the pair before it. */
  ghost predicate Linked(os: seq<OrderedCommit>) {
    forall i, j :: 0 <= i < j < |os| && j == i + 1 ==> os[j].previous == os[i].commit.token
  }

  ghost predicate AllTruthful(s: seq<Commit>, os: seq<OrderedCommit>) {
    forall i :: 0 <= i < |os| ==> Truthful(s, os[i])
  }

  /** What reading the store after c gives: a linked run of truthful pairs, ending at the head. */
  lemma ReadingIsLinked(s: seq<Commit>, c: int)
    requires IsStore(s)
    ensures Linked(Chain(c, GetFrom(s, c))) && AllTruthful(s, Chain(c, GetFrom(s, c)))
  {
    var n := Position(s, c);
    var os := Chain(c, GetFrom(s, c));
    forall i | 0 <= i < |os| ensures Truthful(s, os[i]) {
      PairAtIsTruthful(s, c, i);
    }
  }

  lemma PairAtIsTruthful(s: seq<Commit>, c: int, i: nat)
    requires IsStore(s) && i < |GetFrom(s, c)|
    ensures Truthful(s, Chain(c, GetFrom(s, c))[i])
  {
    var n := Position(s, c);
    var o := Chain(c, GetFrom(s, c))[i];
    assert o.commit == s[n + i];
    if 0 < i {
      assert o.previous == s[n + i - 1].token;
      PositionOfToken(s, n + i - 1);
    }
    TruthfulIsNext(s, o);
  }

  /** The k-th pair of a linked run is made of the commits k places and k - 1 places on in the store. */
  lemma {:induction false} LinkedAt(s: seq<Commit>, os: seq<OrderedCommit>, k: nat)
    requires IsStore(s) && k < |os| && Linked(os) && AllTruthful(s, os)
    ensures var b := Position(s, os[0].previous);
      && Position(s, os[k].previous) == b + k < |s|
      && os[k] == OrderedCommit(s[b + k], if k == 0 then os[0].previous else s[b + k - 1].token)
  {
    if 0 < k {
      LinkedAt(s, os, k - 1);
      TruthfulIsNext(s, os[k - 1]);
    }
    TruthfulIsNext(s, os[k]);
  }

  /** A linked run of truthful pairs is a contiguous slice of the store: no gap, no duplicate, in order. */
  lemma LinkedIsSlice(s: seq<Commit>, os: seq<OrderedCommit>)
    requires IsStore(s) && os != [] && Linked(os) && AllTruthful(s, os)
    ensures os[0].previous < os[|os| - 1].commit.token
    ensures os == Chain(os[0].previous, Slice(s, os[0].previous, os[|os| - 1].commit.token))
  {
    var b := Position(s, os[0].previous);
    LinkedEndsAt(s, os);
    LinkedIsChain(s, os, b);
    assert Slice(s, os[0].previous, os[|os| - 1].commit.token) == s[b..b + |os|];
  }

  lemma {:induction false} LinkedIsChain(s: seq<Commit>, os: seq<OrderedCommit>, b: nat)
    requires IsStore(s) && os != [] && Linked(os) && AllTruthful(s, os)
    requires b == Position(s, os[0].previous) && b + |os| <= |s|
    ensures os == Chain(os[0].previous, s[b..b + |os|])
  {
    var read := s[b..b + |os|];
    forall k | 0 <= k < |os| ensures os[k] == Chain(os[0].previous, read)[k] {
      LinkedAt(s, os, k);
    }
  }

  lemma LinkedEndsAt(s: seq<Commit>, os: seq<OrderedCommit>)
    requires IsStore(s) && os != [] && Linked(os) && AllTruthful(s, os)
    ensures os[0].previous < os[|os| - 1].commit.token
    ensures Position(s, os[0].previous) + |os| == Position(s, os[|os| - 1].commit.token)
  {
    LinkedAt(s, os, |os| - 1);
    TruthfulIsNext(s, os[|os| - 1]);
    TruthfulIsNext(s, os[0]);
  }

  lemma AllTruthfulGrows(s: seq<Commit>, s': seq<Commit>, os: seq<OrderedCommit>)
    requires Grows(s, s') && AllTruthful(s, os)
    ensures AllTruthful(s', os)
  {
    forall i | 0 <= i < |os| ensures Truthful(s', os[i]) {
      TruthfulGrows(s, s', os[i]);
    }
  }

  // ------------------------------------------------------------------ appends

  /** The store after further commits. */
  ghost predicate Grows(s: seq<Commit>, s': seq<Commit>) {
    IsStore(s) && IsStore(s') && s <= s'
  }

  lemma AppendGrows(s: seq<Commit>, c: Commit)
    requires IsStore(s) && Head(s) < c.token
    ensures Grows(s, s + [c])
  {
  }

  lemma CheckpointGrows(s: seq<Commit>, s': seq<Commit>, c: int)
    requires Grows(s, s') && IsCheckpoint(s, c)
    ensures IsCheckpoint(s', c) && Position(s', c) == Position(s, c)
  {
    if c != 0 {
      var i :| 0 <= i < |s| && s[i].token == c;
      assert s'[i].token == c;
      PositionOfToken(s, i);
      PositionOfToken(s', i);
    } else {
      PositionIs(s, c, 0);
      PositionIs(s', c, 0);
    }
  }

  lemma TruthfulGrows(s: seq<Commit>, s': seq<Commit>, o: OrderedCommit)
    requires Grows(s, s') && Truthful(s, o)
    ensures Truthful(s', o)
    ensures Position(s', o.previous) == Position(s, o.previous)
  {
    var n := Position(s, o.previous);
    TruthfulIsNext(s, o);
    assert s'[n] == o.commit;
    assert 0 < n ==> s'[n - 1] == s[n - 1];
    PositionIs(s', o.previous, n);
    TruthfulIsNext(s', o);
  }

  lemma SliceGrows(s: seq<Commit>, s': seq<Commit>, after: int, upTo: int)
    requires Grows(s, s') && IsCheckpoint(s, after) && IsCheckpoint(s, upTo)
    ensures Slice(s', after, upTo) == Slice(s, after, upTo)
  {
    CheckpointGrows(s, s', after);
    CheckpointGrows(s, s', upTo);
  }

  lemma HeadGrows(s: seq<Commit>, s': seq<Commit>)
    requires Grows(s, s')
    ensures 0 <= Head(s) <= Head(s')
  {
  }
}
