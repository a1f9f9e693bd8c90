/** The one-shot actor that orders commits by reading the store. */
module EventStorePollerActor {
  import opened Prelude
  import opened CommitStore

  /** The two highest tokens, highest first (fewer when the store is shorter). */
  function TopTwo(s: seq<Commit>): seq<int> {
    if |s| < 2 then seq(|s|, i requires 0 <= i < |s| => s[i].token)
    else [s[|s| - 1].token, s[|s| - 2].token]
  }

  /** The reply to SendHeadCommit. The tokens are queried on `queried`; the commit is loaded from `loaded`,
      which may have grown since. None stands for the two exceptions: no token, or no commit after it. */
  function HeadReply(queried: seq<Commit>, loaded: seq<Commit>): Option<OrderedCommit>
    requires IsStore(loaded)
  {
    var tokens := TopTwo(queried);
    if tokens == [] then None
    else
      var c := tokens[|tokens| - 1];
      if GetFrom(loaded, c) == [] then None else Some(OrderedCommit(GetFrom(loaded, c)[0], c))
  }

  /** Whatever is appended between the two reads, the reply is truthful. And on a store of at least two
      commits there is one, for the commit that was the head when the tokens were queried. */
  lemma HeadReplyIsTruthful(queried: seq<Commit>, loaded: seq<Commit>)
    requires Grows(queried, loaded)
    ensures HeadReply(queried, loaded).Some? ==> Truthful(loaded, HeadReply(queried, loaded).value)
    ensures HeadReply(queried, loaded).Some? ==>
      queried != [] && IsCheckpoint(queried, HeadReply(queried, loaded).value.previous)
    ensures 2 <= |queried| ==>
      HeadReply(queried, loaded) == Some(OrderedCommit(queried[|queried| - 1], queried[|queried| - 2].token))
  {
    if 2 <= |queried| {
      assert loaded[|queried| - 2] == queried[|queried| - 2] && loaded[|queried| - 1] == queried[|queried| - 1];
      PositionOfToken(loaded, |queried| - 2);
    }
    if HeadReply(queried, loaded).Some? {
      TruthfulIsNext(loaded, HeadReply(queried, loaded).value);
    }
  }

  /** On a store of one commit there is no reply, unless a second commit was appended between the two reads: then it
      is for that one. On an empty store there is none. */
  lemma HeadReplyOfShortStore(queried: seq<Commit>, loaded: seq<Commit>)
    requires Grows(queried, loaded) && |queried| < 2
    ensures HeadReply(queried, loaded)
      == if |queried| == 1 < |loaded| then Some(OrderedCommit(loaded[1], queried[0].token)) else None
  {
    if |queried| == 1 {
      assert loaded[0] == queried[0];
      PositionOfToken(loaded, 0);
    }
  }

  method ReceivedSendHeadCommit(queried: seq<Commit>, loaded: seq<Commit>) returns (reply: Option<OrderedCommit>)
    requires IsStore(loaded)
    ensures reply == HeadReply(queried, loaded)
  {
    var currentHeadCheckpoints := TopTwo(queried);
    if currentHeadCheckpoints == [] {
      return None;
    }
    var last := currentHeadCheckpoints[|currentHeadCheckpoints| - 1];
    var commits := GetFrom(loaded, last);
    if commits == [] {
      return None;
    }
    reply := Some(OrderedCommit(commits[0], last));
  }

  /** Replies to SendCommitAfterCurrentHeadCheckpoint, one message for each commit after the checkpoint. */
  method ReceivedSendCommitsAfter(currentHeadCheckpoint: int, store: seq<Commit>) returns (sent: seq<OrderedCommit>)
    requires IsStore(store)
    ensures sent == Chain(currentHeadCheckpoint, GetFrom(store, currentHeadCheckpoint))
    ensures Linked(sent) && AllTruthful(store, sent)
    ensures sent != [] ==> sent[|sent| - 1].commit == store[|store| - 1]
  {
    var previousCheckpoint := currentHeadCheckpoint;
    var commits := GetFrom(store, currentHeadCheckpoint);
    sent := [];
    for i := 0 to |commits|
      invariant sent == Chain(currentHeadCheckpoint, commits[..i])
      invariant previousCheckpoint == EndOf(currentHeadCheckpoint, commits[..i])
    {
      assert commits[..i + 1] == commits[..i] + [commits[i]];
      ChainAppend(currentHeadCheckpoint, commits[..i], [commits[i]]);
      sent := sent + [OrderedCommit(commits[i], previousCheckpoint)];
      previousCheckpoint := commits[i].token;
    }
    assert commits[..|commits|] == commits;
    ReadingIsLinked(store, currentHeadCheckpoint);
  }
}
