/** Everything the invariant says of a server or message stays true while the history grows
    elsewhere, so each step only has to account for the server it changes.

    Votes, candidacies, elections, acknowledgements and commits are only ever added; a leader's log is
    only ever extended. */
module RaftGrowth {
  import opened RaftServer
  import opened RaftCluster
  import opened RaftInvariant
  import opened RaftLogs
  import opened Quorum

  lemma OverriddenGrows(h: History, h': History, n: nat, a: Ack, bound: nat)
    requires Grows(h, h') && AckOk(h, n, a) && Overridden(h, a, bound)
    ensures a.term in h'.logs && Overridden(h', a, bound)
  {
    var u :| u in h.elections && a.term < u < bound && !Agree(h.elections[u].log, h.logs[a.term], a.index);
    AgreeGrown(h.elections[u].log, h.logs[a.term], h'.logs[a.term], a.index);
    assert u in h'.elections;
  }

  lemma CoveredGrows(h: History, h': History, n: nat, log: seq<Entry>, log': seq<Entry>, index: nat,
                     bound: nat, bound': nat)
    requires HistoryOk(h, n) && Grows(h, h') && Covered(h, log, index, bound)
    requires index < |log| && log <= log' && bound <= bound'
    ensures Covered(h', log', index, bound')
  {
    if index > 0 {
      var c :| c in h.commits && c.term <= bound && index <= c.index && c.term in h.logs && Agree(log, h.logs[c.term], index);
      assert CommitMade(h, n, c);
      AgreeGrown(log, h.logs[c.term], h'.logs[c.term], index);
      AgreeGrown(h'.logs[c.term], log, log', index);
      assert c in h'.commits;
    }
  }

  lemma AckKeptGrows(h: History, h': History, n: nat, s: Server, a: Ack)
    requires Grows(h, h') && AckOk(h, n, a) && AckKept(h, s, a)
    ensures AckKept(h', s, a)
  {
    AgreeGrown(s.log, h.logs[a.term], h'.logs[a.term], a.index);
    if Overridden(h, a, s.currentTerm + 1) { OverriddenGrows(h, h', n, a, s.currentTerm + 1); }
  }

  /** A server that keeps its log and does not go back in time keeps what it acknowledged. */
  lemma AcksStay(h: History, h': History, n: nat, s: Server, s': Server)
    requires HistoryOk(h, n) && Grows(h, h') && AcksOk(h, s)
    requires s'.me == s.me && s'.log == s.log && s'.currentTerm >= s.currentTerm
    requires h'.acks == h.acks
    ensures AcksOk(h', s')
  {
    forall a | a in h'.acks && a.server == s.me ensures AckKept(h', s', a) {
      assert AckKept(h, s, a) && AckOk(h, n, a);
      AckKeptGrows(h, h', n, s, a);
      if Overridden(h', a, s.currentTerm + 1) {
        var u :| u in h'.elections && a.term < u < s.currentTerm + 1 && !Agree(h'.elections[u].log, h'.logs[a.term], a.index);
        assert Overridden(h', a, s'.currentTerm + 1);
      }
    }
  }

  lemma LogOkGrows(h: History, h': History, n: nat, s: Server, s': Server)
    requires HistoryOk(h, n) && Grows(h, h') && LogOk(h, s)
    requires s'.log == s.log && s'.commitIndex == s.commitIndex && s'.currentTerm >= s.currentTerm
    requires s'.snapshotLastIndex == 0 && s'.snapshotLastTerm == 0
    ensures LogOk(h', s')
  {
    TracedGrown(h.logs, h'.logs, s.log);
    CoveredGrows(h, h', n, s.log, s.log, s.commitIndex, s.currentTerm, s'.currentTerm);
  }

  lemma AcksOkGrows(h: History, h': History, n: nat, i: nat, s: Server)
    requires HistoryOk(h, n) && Extends(h, h', i) && AcksOk(h, s) && s.me != i
    ensures AcksOk(h', s)
  {
    forall a | a in h'.acks && a.server == s.me ensures AckKept(h', s, a) {
      assert a in h.acks;
      AckKeptGrows(h, h', n, s, a);
    }
  }

  /** A server's votes are unaffected by replication. */
  lemma BallotsStay(h: History, h': History, s: Server, s': Server)
    requires BallotsOk(h, s)
    requires h'.votes == h.votes && h'.candidacies == h.candidacies && h'.elections == h.elections
    requires s'.me == s.me && s'.currentTerm == s.currentTerm && s'.votedFor == s.votedFor
    requires s'.votesReceived == s.votesReceived
    requires s'.log == s.log || s.currentTerm in h.elections
    requires s'.role == s.role || (s.currentTerm in h.elections && h.elections[s.currentTerm].leader != s.me)
    ensures BallotsOk(h', s')
  {
    forall p | 0 <= p < |s'.votesReceived| && s'.votesReceived[p] && Ballot(s.currentTerm, s.me) in h'.candidacies
      ensures VotedFor(h', s', p)
    {
      assert VotedFor(h, s, p);
    }
  }

  /** Only the leader's record of its peers changes. */
  lemma BookkeepingOk(h: History, n: nat, s: Server, s': Server)
    requires HistoryOk(h, n) && ServerOk(h, s) && WellFormed(s') && LeaderOk(h, s')
    requires s' == s.(nextIndex := s'.nextIndex, matchIndex := s'.matchIndex)
    ensures ServerOk(h, s')
  {
    LogOkGrows(h, h, n, s, s');
    AcksStay(h, h, n, s, s');
    BallotsStay(h, h, s, s');
  }

  lemma BallotsOkGrows(h: History, h': History, i: nat, s: Server)
    requires Extends(h, h', i) && BallotsOk(h, s) && s.me != i
    ensures BallotsOk(h', s)
  {
    forall p | 0 <= p < |s.votesReceived| && s.votesReceived[p] && Ballot(s.currentTerm, s.me) in h'.candidacies
      ensures VotedFor(h', s, p)
    {
      assert VotedFor(h, s, p);
    }
  }

  lemma LeaderOkGrows(h: History, h': History, i: nat, s: Server)
    requires Extends(h, h', i) && WellFormed(s) && LeaderOk(h, s) && s.me != i
    ensures LeaderOk(h', s)
  {
    if s.role == Leader {
      forall p | 0 <= p < s.n ensures PeerOk(h', s, p) {
        assert PeerOk(h, s, p);
      }
    }
  }

  lemma ServerOkGrows(h: History, h': History, n: nat, i: nat, s: Server)
    requires HistoryOk(h, n) && Extends(h, h', i) && ServerOk(h, s) && s.me != i
    ensures ServerOk(h', s)
  {
    LogOkGrows(h, h', n, s, s);
    AcksOkGrows(h, h', n, i, s);
    BallotsOkGrows(h, h', i, s);
    LeaderOkGrows(h, h', i, s);
  }

  lemma CallOkGrows(h: History, h': History, n: nat, call: Call)
    requires HistoryOk(h, n) && Grows(h, h') && CallOk(h, n, call)
    ensures CallOk(h', n, call)
  {
    if call.AppendCall? {
      var a := call.append;
      var log, log' := h.logs[a.term], h'.logs[a.term];
      CoveredGrows(h, h', n, log, log', a.leaderCommit, a.term, a.term);
      var last := a.prevLogIndex + |a.entries|;
      assert log'[..last + 1] == log[..last + 1];
      assert log'[a.prevLogIndex + 1..last + 1] == log'[..last + 1][a.prevLogIndex + 1..];
      assert log[a.prevLogIndex + 1..last + 1] == log[..last + 1][a.prevLogIndex + 1..];
    }
  }

  lemma ReplyOkGrows(h: History, h': History, n: nat, reply: Reply)
    requires HistoryOk(h, n) && Grows(h, h') && ReplyOk(h, n, reply)
    ensures ReplyOk(h', n, reply)
  {
    CallOkGrows(h, h', n, reply.call);
  }

  /** A step of server `i`: the invariant follows from what is said of the new server, the new
      messages and the new history. */
  lemma StepKeepsInv(c: Cluster, h: History, h': History, i: nat, s: Server, calls: set<Call>, replies: set<Reply>)
    requires Inv(c, h) && i < |c.servers|
    requires Extends(h, h', i) && HistoryOk(h', |c.servers|)
    requires s.me == i && s.n == |c.servers| && ServerOk(h', s)
    requires |s.votesReceived| >= |c.servers[i].votesReceived|
    requires forall call :: call in calls ==>
               CallOk(h', s.n, call) && call.caller == i && call.epoch == c.epochs[i]
               && (call.VoteCall? ==> |s.votesReceived| == s.n)
    requires forall r :: r in replies ==> ReplyOk(h', s.n, r) && r.call in c.calls
    requires forall a {:trigger AckBacked(replies, h', a)} ::
               a in h'.acks && a !in h.acks ==> AckBacked(replies, h', a)
    ensures Inv(Put(c, i, s, calls, replies), h')
  {
    var c' := Put(c, i, s, calls, replies);
    var n := |c.servers|;
    forall j | 0 <= j < n
      ensures c'.servers[j].me == j && c'.servers[j].n == n && ServerOk(h', c'.servers[j])
    {
      if j != i { ServerOkGrows(h, h', n, i, c.servers[j]); }
    }
    forall call | call in c'.calls ensures CallOk(h', n, call) && EpochOk(c', call) {
      if call in c.calls {
        CallOkGrows(h, h', n, call);
        assert EpochOk(c, call);
      }
    }
    forall r | r in c'.replies ensures ReplyOk(h', n, r) && r.call in c'.calls {
      if r in c.replies { ReplyOkGrows(h, h', n, r); }
    }
    forall a | a in h'.acks ensures AckBacked(c'.replies, h', a) {
      assert if a in h.acks then AckBacked(c.replies, h, a) else AckBacked(replies, h', a);
    }
  }

  /** A step that sends nothing. */
  lemma QuietStepKeepsInv(c: Cluster, h: History, h': History, i: nat, s: Server)
    requires Inv(c, h) && i < |c.servers|
    requires Extends(h, h', i) && HistoryOk(h', |c.servers|)
    requires s.me == i && s.n == |c.servers| && ServerOk(h', s)
    requires |s.votesReceived| >= |c.servers[i].votesReceived|
    requires forall a {:trigger AckBacked({}, h', a)} :: a in h'.acks && a !in h.acks ==> AckBacked({}, h', a)
    ensures Inv(Put(c, i, s, {}, {}), h')
  {
    StepKeepsInv(c, h, h', i, s, {}, {});
  }

  /** A step that answers one call; what it newly acknowledges, the answer confirms. */
  lemma AnswerKeepsInv(c: Cluster, h: History, h': History, i: nat, s: Server, r: Reply)
    requires Inv(c, h) && i < |c.servers|
    requires Extends(h, h', i) && HistoryOk(h', |c.servers|)
    requires s.me == i && s.n == |c.servers| && ServerOk(h', s)
    requires |s.votesReceived| >= |c.servers[i].votesReceived|
    requires ReplyOk(h', |c.servers|, r) && r.call in c.calls
    requires forall a {:trigger Confirms(r, a)} :: a in h'.acks && a !in h.acks ==> Confirms(r, a)
    ensures Inv(Put(c, i, s, {}, {r}), h')
  {
    forall a | a in h'.acks && a !in h.acks ensures AckBacked({r}, h', a) { assert Confirms(r, a); }
    StepKeepsInv(c, h, h', i, s, {}, {r});
  }
}
