/** What a leader has committed, exactly: the entries of its term that a majority of the peers are known
    to hold, neither more nor fewer. */
module RaftCommits {
  import opened RaftServer
  import opened RaftCluster
  import opened RaftInvariant
  import opened RaftLogs
  import opened RaftElections
  import opened RaftReplication
  import opened RaftSafety
  import opened Quorum

  /** Index `i` is an entry of the leader's own term. */
  predicate OwnEntry(s: Server, i: nat) {
    i < |s.log| && s.log[i].term == s.currentTerm
  }

  /** A leader has another peer, and no entry of its term that a majority hold is left uncommitted. */
  ghost predicate Committing(s: Server) {
    s.role == Leader ==>
      && s.n >= 2
      && forall i: nat {:trigger OwnEntry(s, i)} :: OwnEntry(s, i) && Majority(s.n, AtLeast(s.matchIndex, i)) ==> i <= s.commitIndex
  }

  /** Alone a server is no majority of several. */
  lemma AloneIsFew(n: nat, q: set<nat>, me: nat)
    requires n >= 2 && q <= {me}
    ensures !Majority(n, q)
  {
    SubsetSize(q, {me});
  }

  lemma WinnerCommits(s: Server)
    requires WellFormed(s) && s.n >= 2
    ensures Committing(BecomeLeader(s))
  {
    var t := BecomeLeader(s);
    forall i: nat | OwnEntry(t, i) && Majority(t.n, AtLeast(t.matchIndex, i)) ensures i <= t.commitIndex {
      if i > t.commitIndex { AloneIsFew(t.n, AtLeast(t.matchIndex, i), s.me); }
    }
  }

  /** The leader's own new entry is held by nobody else yet. */
  lemma SubmitCommits(h: History, s: Server, command: Command)
    requires ServerOk(h, s) && Committing(s)
    ensures Committing(Start(s, command).0)
  {
    var t := Start(s, command).0;
    if s.role == Leader {
      forall i: nat | OwnEntry(t, i) && Majority(t.n, AtLeast(t.matchIndex, i)) ensures i <= t.commitIndex {
        if i == |s.log| {
          forall p | p in AtLeast(t.matchIndex, i) ensures p == s.me { assert PeerOk(h, s, p); }
          AloneIsFew(t.n, AtLeast(t.matchIndex, i), s.me);
        } else {
          assert PeerOk(h, s, s.me);
          assert AtLeast(t.matchIndex, i) == AtLeast(s.matchIndex, i);
          assert OwnEntry(s, i);
        }
      }
    }
  }

  /** Once a success is taken, everything of this term that a majority hold is committed. */
  lemma UpdateCommits(h: History, n: nat, s: Server)
    requires HistoryOk(h, n) && ServerOk(h, s) && s.n == n && s.role == Leader && MedianInLog(s)
    ensures var t := UpdateCommitIndex(s);
            forall i: nat {:trigger OwnEntry(t, i)} :: OwnEntry(t, i) && Majority(t.n, AtLeast(t.matchIndex, i)) ==> i <= t.commitIndex
  {
    var t := UpdateCommitIndex(s);
    TracedOrdered(h, n, s.log);
    forall i: nat | OwnEntry(t, i) && Majority(t.n, AtLeast(t.matchIndex, i)) ensures i <= t.commitIndex {
      MedianIsMajority(s.matchIndex, i);
      assert s.log[i].term <= s.log[Median(s.matchIndex)].term <= s.currentTerm;
    }
  }

  lemma ReceivingCommits(h: History, n: nat, s: Server, r: Reply)
    requires HistoryOk(h, n) && ServerOk(h, s) && s.n == n && ReplyOk(h, n, r) && r.Appended? && r.call.caller == s.me
    requires TakesAppendReply(s, r.call.callee, r.call.append, r.appended) && r.appended.success ==>
               MedianInLog(Matched(s, r.call.callee, r.call.append))
    requires Committing(s)
    ensures Committing(ReceiveAppend(s, r.call.callee, r.call.append, r.appended))
  {
    var t := ReceiveAppend(s, r.call.callee, r.call.append, r.appended);
    if TakesAppendReply(s, r.call.callee, r.call.append, r.appended) {
      if r.appended.success {
        MatchedOk(h, n, s, r.call.callee, r.call.append);
        UpdateCommits(h, n, Matched(s, r.call.callee, r.call.append));
      } else {
        forall i: nat | OwnEntry(t, i) && Majority(t.n, AtLeast(t.matchIndex, i)) ensures i <= t.commitIndex {
          assert OwnEntry(s, i);
        }
      }
    }
  }

  lemma VotingCommits(h: History, n: nat, s: Server, r: Reply)
    requires ServerOk(h, s) && s.n == n && ReplyOk(h, n, r) && r.Voted? && r.call.caller == s.me && Committing(s)
    requires CountsVote(s, r.call.vote.term, r.voted) ==> r.call.callee < |s.votesReceived|
    ensures Committing(ReceiveVote(s, r.call.callee, r.call.vote.term, r.voted))
  {
    if CountsVote(s, r.call.vote.term, r.voted) {
      WinnerCommits(s.(votesReceived := s.votesReceived[r.call.callee := true]));
    }
  }

  /** No other step makes a leader, or moves an index of one. */
  lemma OthersCommit(c: Cluster, step: Step, i: nat)
    requires Shaped(c) && Enabled(c, step) && Safe(c, step) && i < |c.servers| && Committing(c.servers[i])
    requires !step.FinishAppend? && !step.Submit? && !step.FinishVote?
    ensures Committing(Apply(c, step).servers[i])
  {
    var s, t := c.servers[i], Apply(c, step).servers[i];
    if t.role == Leader {
      assert s.role == Leader && t.log == s.log && t.matchIndex == s.matchIndex && t.commitIndex == s.commitIndex
             && t.currentTerm == s.currentTerm && t.n == s.n;
      forall j: nat | OwnEntry(t, j) && Majority(t.n, AtLeast(t.matchIndex, j)) ensures j <= t.commitIndex {
        assert OwnEntry(s, j);
      }
    }
  }

  lemma StepCommits(c: Cluster, h: History, step: Step, i: nat)
    requires Inv(c, h) && Enabled(c, step) && Safe(c, step) && i < |c.servers| && Committing(c.servers[i])
    ensures Committing(Apply(c, step).servers[i])
  {
    var s := c.servers[i];
    match step
    case FinishAppend(r) =>
      assert ReplyOk(h, s.n, r);
      if r.call.caller == i { ReceivingCommits(h, s.n, s, r); }
    case FinishVote(r) =>
      assert ReplyOk(h, s.n, r);
      if r.call.caller == i { VotingCommits(h, s.n, s, r); }
    case Submit(j, command) =>
      if j == i { SubmitCommits(h, s, command); }
    case _ => OthersCommit(c, step, i);
  }

  lemma {:induction false} RunCommits(n: nat, states: seq<Cluster>, steps: seq<Step>, hs: seq<History>, k: nat, i: nat)
    requires Explains(n, states, steps, hs) && |hs| == |states| && IsRun(n, states, steps) && k < |states| && i < n
    requires forall j {:trigger Taken(states, steps, j)} :: 0 <= j < |steps| ==> Taken(states, steps, j)
    ensures Serves(n, states, k, i) && Committing(states[k].servers[i])
  {
    ServerAt(n, states, steps, hs, k, i);
    if k > 0 {
      RunCommits(n, states, steps, hs, k - 1, i);
      assert Taken(states, steps, k - 1) && Inv(states[k - 1], hs[k - 1]);
      StepCommits(states[k - 1], hs[k - 1], steps[k - 1], i);
    }
  }

  /** The commit rule, at every moment of every run: an entry of a leader's own term is committed there if
      and only if a majority of the peers are known to hold it. */
  lemma CommittedIffMajority(n: nat, states: seq<Cluster>, steps: seq<Step>, k: nat, l: nat, i: nat)
    requires IsRun(n, states, steps) && ElectionsMeet(n) && k < |states| && l < n
    ensures Serves(n, states, k, l)
    ensures var s := states[k].servers[l];
            s.role == Leader && i < |s.log| && s.log[i].term == s.currentTerm ==>
              (i <= s.commitIndex <==> Majority(n, AtLeast(s.matchIndex, i)))
  {
    var hs := RunExplained(n, states, steps, |steps|);
    RunCommits(n, states, steps, hs, k, l);
    ServerAt(n, states, steps, hs, k, l);
    var s := states[k].servers[l];
    if s.role == Leader && OwnEntry(s, i) && i <= s.commitIndex {
      LargerMajority(n, AtLeast(s.matchIndex, s.commitIndex), AtLeast(s.matchIndex, i));
    }
  }
}
