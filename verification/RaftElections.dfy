/** The election steps keep the invariant.

    A timeout starts a term nobody has voted in before. A vote goes to a log at least as up to date as
    the voter's, so whatever the voter acknowledged is in it or was overridden by a later leader. A win
    needs a majority of the votes of one term. */
module RaftElections {
  import opened RaftServer
  import opened RaftCluster
  import opened RaftInvariant
  import opened RaftLogs
  import opened RaftGrowth
  import opened RaftRecord
  import opened Quorum

  /** Vote counting needs a strict majority. `(n+1)/2` votes are one when `n` is odd; with two
      servers the winner has its own vote and one granted reply. */
  predicate ElectionsMeet(n: nat) {
    n % 2 == 1 || n <= 2
  }

  /** A server that only moves to a later term, forgetting its vote. */
  lemma LaterTermOk(h: History, n: nat, s: Server, term: nat)
    requires HistoryOk(h, n) && ServerOk(h, s) && term > s.currentTerm
    ensures ServerOk(h, BecomeFollower(s, term))
  {
    var s' := BecomeFollower(s, term);
    AcksStay(h, h, n, s, s');
    LogOkGrows(h, h, n, s, s');
    assert Ballot(term, s.me) !in h.votes && Ballot(term, s.me) !in h.candidacies;
    if term in h.elections { assert ElectionOk(h, n, term); }
  }

  // ----- startElection -----

  function Stood(h: History, s: Server): History {
    WithStanding(h, Ballot(s.currentTerm + 1, s.me), s.log)
  }

  lemma StoodOk(h: History, n: nat, s: Server)
    requires HistoryOk(h, n) && s.me < n && LogOk(h, s) && BallotsOk(h, s) && AcksOk(h, s)
    ensures HistoryOk(Stood(h, s), n) && Extends(h, Stood(h, s), s.me)
  {
    var b := Ballot(s.currentTerm + 1, s.me);
    forall a | a in h.acks && Binds(h, b, a)
      ensures Agree(s.log, h.logs[a.term], a.index) || Overridden(h, a, b.term)
    {
      assert AckKept(h, s, a);
    }
    AddStanding(h, n, b, s.log);
  }

  lemma CandidateOk(h: History, n: nat, s: Server)
    requires HistoryOk(h, n) && ServerOk(h, s) && s.n == n && Extends(h, Stood(h, s), s.me)
    ensures ServerOk(Stood(h, s), StartElection(s))
  {
    var h', s' := Stood(h, s), StartElection(s);
    LogOkGrows(h, h', n, s, s');
    AcksStay(h, h', n, s, s');
    forall p | 0 <= p < |s'.votesReceived| && s'.votesReceived[p] ensures VotedFor(h', s', p) {}
    if s'.currentTerm in h.elections { assert ElectionOk(h, n, s'.currentTerm); }
  }

  lemma TimeoutKeepsInv(c: Cluster, h: History, i: nat) returns (h': History)
    requires Inv(c, h) && Enabled(c, Timeout(i))
    ensures Safe(c, Timeout(i)) && Grows(h, h') && Inv(Apply(c, Timeout(i)), h')
  {
    var s := c.servers[i];
    h' := Stood(h, s);
    StoodOk(h, s.n, s);
    CandidateOk(h, s.n, s);
    StepKeepsInv(c, h, h', i, StartElection(s), VoteCalls(StartElection(s), c.epochs[i]), {});
  }

  // ----- RequestVote -----

  /** The voter's check compares logs so that the candidate has what the voter acknowledged. */
  lemma VoteSafe(h: History, n: nat, s: Server, log: seq<Entry>, term: nat, a: Ack)
    requires HistoryOk(h, n) && ServerOk(h, s) && a in h.acks && a.server == s.me && s.currentTerm == term
    requires Traced(h.logs, log) && TermsBelow(log, term) && term !in h.elections
    requires AckOk(h, n, a) && a.term < term && h.logs[a.term][a.index].term == a.term
    requires var last := log[|log| - 1].term;
             !(LastTerm(s) > last || (LastTerm(s) == last && |s.log| > |log|))
    ensures Agree(log, h.logs[a.term], a.index) || Overridden(h, a, term)
  {
    assert AckKept(h, s, a);
    if Overridden(h, a, term + 1) {
      var u :| u in h.elections && a.term < u < term + 1 && !Agree(h.elections[u].log, h.logs[a.term], a.index);
      assert u < term;
      assert Overridden(h, a, term);
    } else {
      var held := s.log[a.index];
      assert held == s.log[..a.index + 1][a.index] == h.logs[a.term][..a.index + 1][a.index];
      TracedOrdered(h, n, s.log);
      assert LastTerm(s) >= a.term;
      var last := |log| - 1;
      if log[last].term > a.term {
        LaterLogCoversWin(h, n, log, a);
        assert log[last].term < term;
      } else {
        assert ElectionOk(h, n, a.term);
        TracedEnd(h, n, log, last);
        AgreeShorter(log, h.logs[a.term], last, a.index);
      }
    }
  }

  lemma GrantOk(h: History, n: nat, s: Server, args: VoteArgs, callee: nat)
    requires HistoryOk(h, n) && ServerOk(h, s) && s.n == n && s.me == callee
    requires VoteCallOk(h, n, args.candidateId, callee, args) && args.term == s.currentTerm
    requires s.votedFor == -1 && !LogOlder(s, args)
    ensures var b, s' := Ballot(args.term, callee), s.(votedFor := args.candidateId);
            var h' := WithVote(h, b, args.candidateId);
            HistoryOk(h', n) && Extends(h, h', callee) && ServerOk(h', s')
  {
    var b, s' := Ballot(args.term, callee), s.(votedFor := args.candidateId);
    var cand := Ballot(args.term, args.candidateId);
    var log := h.candidacies[cand];
    assert CandidacyOk(h, cand);
    forall a | a in h.acks && Binds(h, b, a) && b.term !in h.elections
      ensures Agree(log, h.logs[a.term], a.index) || Overridden(h, a, b.term)
    {
      assert AckOk(h, n, a);
      VoteSafe(h, n, s, log, args.term, a);
    }
    AddVote(h, n, b, args.candidateId);
    var h' := WithVote(h, b, args.candidateId);
    LogOkGrows(h, h', n, s, s');
    AcksStay(h, h', n, s, s');
    LeaderVoted(h, n, s);
  }

  /** A leader has voted for itself, so it grants no vote in its term. */
  lemma LeaderVoted(h: History, n: nat, s: Server)
    requires HistoryOk(h, n) && ServerOk(h, s)
    ensures s.role == Leader ==> s.votedFor == s.me
  {
    if s.role == Leader { assert ElectionOk(h, n, s.currentTerm); }
  }

  lemma VoterOk(h: History, n: nat, s: Server, args: VoteArgs) returns (h': History)
    requires HistoryOk(h, n) && ServerOk(h, s) && s.n == n && VoteCallOk(h, n, args.candidateId, s.me, args)
    ensures HistoryOk(h', n) && Extends(h, h', s.me) && ServerOk(h', RequestVote(s, args).0) && h'.acks == h.acks
    ensures RequestVote(s, args).1.granted ==>
              var b := Ballot(args.term, s.me); b in h'.votes && h'.votes[b] == args.candidateId
  {
    h' := h;
    if args.term >= s.currentTerm {
      var s1 := if args.term > s.currentTerm then BecomeFollower(s, args.term) else s;
      if args.term > s.currentTerm { LaterTermOk(h, n, s, args.term); }
      if s1.votedFor == -1 && !LogOlder(s1, args) {
        GrantOk(h, n, s1, args, s.me);
        h' := WithVote(h, Ballot(args.term, s.me), args.candidateId);
      }
    }
  }

  lemma VoterSame(s: Server, args: VoteArgs)
    requires WellFormed(s)
    ensures var s' := RequestVote(s, args).0; s'.me == s.me && s'.n == s.n && s'.votesReceived == s.votesReceived
  {
  }

  lemma VoteAnswerOk(h: History, n: nat, call: Call, r: VoteReply)
    requires CallOk(h, n, call) && call.VoteCall?
    requires r.granted ==> var b := Ballot(call.vote.term, call.callee); b in h.votes && h.votes[b] == call.caller
    ensures ReplyOk(h, n, Voted(call, r))
  {
  }

  lemma HandleVoteKeepsInv(c: Cluster, h: History, call: Call) returns (h': History)
    requires Inv(c, h) && Enabled(c, HandleVote(call))
    ensures Safe(c, HandleVote(call)) && Grows(h, h') && Inv(Apply(c, HandleVote(call)), h')
  {
    var s := c.servers[call.callee];
    assert CallOk(h, s.n, call);
    h' := VoterOk(h, s.n, s, call.vote);
    VoterSame(s, call.vote);
    CallOkGrows(h, h', s.n, call);
    var (s', r) := RequestVote(s, call.vote);
    VoteAnswerOk(h', s.n, call, r);
    AnswerKeepsInv(c, h, h', call.callee, s', Voted(call, r));
  }

  // ----- sendRequestVote after the reply -----

  function Won(h: History, s: Server): History
    requires s.log != []
  {
    WithWin(h, s.currentTerm, Election(s.me, s.log, TrueAt(s.votesReceived)))
  }

  /** A server holding a majority of votes wins a term nobody else has won. */
  lemma WonOk(h: History, n: nat, s: Server)
    requires HistoryOk(h, n) && WellFormed(s) && BallotsOk(h, s) && s.n == n
    requires Ballot(s.currentTerm, s.me) in h.candidacies
    requires Majority(n, TrueAt(s.votesReceived)) && s.currentTerm !in h.elections
    ensures HistoryOk(Won(h, s), n) && Extends(h, Won(h, s), s.me)
  {
    assert CandidacyOk(h, Ballot(s.currentTerm, s.me));
    assert s.log[0].term < s.currentTerm;
    forall v | v in TrueAt(s.votesReceived) ensures VotedFor(h, s, v) {}
    AddWin(h, n, s.currentTerm, Election(s.me, s.log, TrueAt(s.votesReceived)));
  }

  lemma LeaderStartsOk(h: History, n: nat, s: Server)
    requires HistoryOk(h, n) && ServerOk(h, s) && s.n == n
    requires Extends(h, Won(h, s), s.me) && s.currentTerm !in h.logs
    ensures ServerOk(Won(h, s), BecomeLeader(s))
  {
    var h', s' := Won(h, s), BecomeLeader(s);
    LogOkGrows(h, h', n, s, s');
    forall a | a in h'.acks && a.server == s.me ensures AckKept(h', s', a) {
      if a in h.acks {
        assert AckOk(h, n, a);
        AckKeptGrows(h, h', n, s, a);
      } else {
        PrefixAgrees(s.log, h'.logs[a.term], a.index);
      }
    }
    forall p | 0 <= p < |s.votesReceived| && s.votesReceived[p] && Ballot(s.currentTerm, s.me) in h'.candidacies
      ensures VotedFor(h', s', p)
    {
      assert VotedFor(h, s, p);
    }
    MedianAll(s'.matchIndex, s.commitIndex);
    assert Ack(s.me, s.currentTerm, |s.log| - 1) in h'.acks;
    forall p | 0 <= p < n ensures PeerOk(h', s', p) {}
  }

  lemma MedianAll(s: seq<nat>, c: nat)
    requires s != [] && forall i :: 0 <= i < |s| ==> s[i] >= c
    ensures Majority(|s|, AtLeast(s, c))
  {
    CountGeAll(s, c);
    CountGeIsSize(s, c);
  }

  /** Enough flags, with the server's own among them and one more, are a majority of the votes. */
  lemma EnoughVotes(votes: seq<bool>, me: nat, peer: nat)
    requires ElectionsMeet(|votes|) && me < |votes| && peer < |votes| && me != peer
    requires votes[me] && votes[peer] && CountTrue(votes) >= VoteThreshold(|votes|)
    ensures Majority(|votes|, TrueAt(votes))
  {
    CountTrueIsSize(votes);
    SubsetSize({me, peer}, TrueAt(votes));
  }

  /** Election Safety at the moment of winning: the term has no leader yet. */
  lemma TermIsFree(h: History, n: nat, s: Server)
    requires HistoryOk(h, n) && ServerOk(h, s) && s.role != Leader && s.n == n && s.votesReceived != []
    requires Majority(n, TrueAt(s.votesReceived)) && Ballot(s.currentTerm, s.me) in h.candidacies
    ensures s.currentTerm !in h.elections
  {
    if s.currentTerm in h.elections {
      var e := h.elections[s.currentTerm];
      assert ElectionOk(h, n, s.currentTerm);
      var v := MajoritiesMeet(n, e.voters, TrueAt(s.votesReceived));
      var voted := VotedFor(h, s, v);
      assert false;
    }
  }

  lemma CountVoteOk(h: History, n: nat, s: Server, peer: nat)
    requires HistoryOk(h, n) && ServerOk(h, s) && s.role != Leader && peer < |s.votesReceived|
    requires Ballot(s.currentTerm, s.me) in h.candidacies ==> VotedFor(h, s, peer)
    ensures ServerOk(h, s.(votesReceived := s.votesReceived[peer := true]))
  {
    var s' := s.(votesReceived := s.votesReceived[peer := true]);
    AcksStay(h, h, n, s, s');
    forall p | 0 <= p < |s'.votesReceived| && s'.votesReceived[p] && Ballot(s.currentTerm, s.me) in h.candidacies
      ensures VotedFor(h, s', p)
    {
      if p != peer { assert VotedFor(h, s, p); }
    }
  }

  lemma TalliedOk(h: History, n: nat, s: Server, reply: Reply) returns (h': History)
    requires HistoryOk(h, n) && ServerOk(h, s) && s.n == n && ReplyOk(h, n, reply) && reply.Voted?
    requires reply.call.caller == s.me && |s.votesReceived| == n && ElectionsMeet(n)
    ensures HistoryOk(h', n) && Extends(h, h', s.me)
    ensures var s' := ReceiveVote(s, reply.call.callee, reply.call.vote.term, reply.voted);
            s'.me == s.me && s'.n == n && ServerOk(h', s') && |s'.votesReceived| >= |s.votesReceived|
    ensures forall a {:trigger AckBacked({}, h', a)} :: a in h'.acks && a !in h.acks ==> AckBacked({}, h', a)
  {
    var peer, term, r := reply.call.callee, reply.call.vote.term, reply.voted;
    h' := h;
    if r.term > s.currentTerm {
      LaterTermOk(h, n, s, r.term);
    } else if CountsVote(s, term, r) {
      var s1 := s.(votesReceived := s.votesReceived[peer := true]);
      CountVoteOk(h, n, s, peer);
      if CountTrue(s1.votesReceived) >= VoteThreshold(n) {
        h' := Won(h, s1);
        WinOk(h, n, s1, peer);
      }
    }
  }

  lemma FinishVoteKeepsInv(c: Cluster, h: History, reply: Reply) returns (h': History)
    requires Inv(c, h) && Enabled(c, FinishVote(reply)) && ElectionsMeet(|c.servers|)
    ensures Safe(c, FinishVote(reply)) && Grows(h, h') && Inv(Apply(c, FinishVote(reply)), h')
  {
    var s := c.servers[reply.call.caller];
    assert ReplyOk(h, s.n, reply) && EpochOk(c, reply.call);
    h' := TalliedOk(h, s.n, s, reply);
    QuietStepKeepsInv(c, h, h', s.me, ReceiveVote(s, reply.call.callee, reply.call.vote.term, reply.voted));
  }

  lemma WinOk(h: History, n: nat, s: Server, peer: nat)
    requires HistoryOk(h, n) && ServerOk(h, s) && s.n == n && ElectionsMeet(n) && s.role != Leader
    requires |s.votesReceived| == n && Ballot(s.currentTerm, s.me) in h.candidacies
    requires peer < n && peer != s.me && s.votesReceived[peer] && s.votesReceived[s.me]
    requires CountTrue(s.votesReceived) >= VoteThreshold(n)
    ensures HistoryOk(Won(h, s), n) && Extends(h, Won(h, s), s.me) && ServerOk(Won(h, s), BecomeLeader(s))
  {
    EnoughVotes(s.votesReceived, s.me, peer);
    TermIsFree(h, n, s);
    WonOk(h, n, s);
    LeaderStartsOk(h, n, s);
  }
}
