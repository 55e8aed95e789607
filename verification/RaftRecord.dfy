/** The ways a run adds to its history, each keeping the history sound.

    A server stands for election, votes, wins a term, appends an entry of its own term, acknowledges a
    prefix, or commits an index. Every addition has its own lemma, and all of them go through one that
    carries the untouched parts of the history over. */
module RaftRecord {
  import opened RaftServer
  import opened RaftCluster
  import opened RaftInvariant
  import opened RaftLogs
  import opened RaftGrowth
  import opened Quorum

  lemma VoteKeepsGrows(h: History, h': History, n: nat, b: Ballot, a: Ack)
    requires Grows(h, h') && AckOk(h, n, a) && b in h.votes && BallotOk(h, n, b) && VoteKeeps(h, b, a)
    requires Counted(h', b) ==> Counted(h, b)
    ensures VoteKeeps(h', b, a)
  {
    AgreeGrown(h.candidacies[Ballot(b.term, h.votes[b])], h.logs[a.term], h'.logs[a.term], a.index);
    if Overridden(h, a, b.term) { OverriddenGrows(h, h', n, a, b.term); }
  }

  lemma CommitMadeGrows(h: History, h': History, n: nat, c: Commit)
    requires Grows(h, h') && CommitMade(h, n, c)
    ensures CommitMade(h', n, c)
  {
    LargerMajority(n, Holders(h, n, c.term, c.index), Holders(h', n, c.term, c.index));
  }

  lemma CandidacyOkGrows(h: History, h': History, b: Ballot)
    requires Grows(h, h') && b in h.candidacies && CandidacyOk(h, b)
    ensures CandidacyOk(h', b)
  {
    TracedGrown(h.logs, h'.logs, h.candidacies[b]);
  }

  lemma ElectionOkGrows(h: History, h': History, n: nat, t: nat)
    requires Grows(h, h') && t in h.elections && t in h.logs && ElectionOk(h, n, t)
    requires h'.logs[t] == h.logs[t]
    ensures ElectionOk(h', n, t)
  {
    TracedGrown(h.logs, h'.logs, h.logs[t]);
  }

  /** What a larger history has to say of its new parts only. */
  predicate NewPartsOk(h: History, h': History, n: nat) {
    && h'.logs.Keys == h'.elections.Keys
    && (forall t {:trigger ElectionOk(h', n, t)} :: t in h'.elections && (t !in h.logs || h.logs[t] != h'.logs[t]) ==> ElectionOk(h', n, t))
    && (forall b {:trigger CandidacyOk(h', b)} :: b in h'.candidacies && b !in h.candidacies ==> CandidacyOk(h', b))
    && (forall b {:trigger BallotOk(h', n, b)} :: b in h'.votes && b !in h.votes ==> BallotOk(h', n, b))
    && (forall a {:trigger AckOk(h', n, a)} :: a in h'.acks && a !in h.acks ==> AckOk(h', n, a))
    && (forall c {:trigger CommitMade(h', n, c)} :: c in h'.commits && c !in h.commits ==> CommitMade(h', n, c))
    && (forall b :: b in h.votes && Counted(h', b) ==> Counted(h, b))
  }

  lemma NewHistoryOk(h: History, h': History, n: nat)
    requires HistoryOk(h, n) && Grows(h, h') && NewPartsOk(h, h', n)
    requires forall b, a {:trigger VoteKeeps(h', b, a)} | b in h'.votes && a in h'.acks && (b !in h.votes || a !in h.acks) ::
               Ballot(b.term, h'.votes[b]) in h'.candidacies ==> VoteKeeps(h', b, a)
    ensures HistoryOk(h', n)
  {
    forall t | t in h'.elections ensures ElectionOk(h', n, t) {
      if t in h.logs && h.logs[t] == h'.logs[t] { ElectionOkGrows(h, h', n, t); }
    }
    forall b | b in h'.candidacies ensures CandidacyOk(h', b) {
      if b in h.candidacies { CandidacyOkGrows(h, h', b); }
    }
    forall b | b in h'.votes ensures BallotOk(h', n, b) {
      if b in h.votes { assert BallotOk(h, n, b); }
    }
    forall a | a in h'.acks ensures AckOk(h', n, a) {
      if a in h.acks { assert AckOk(h, n, a); }
    }
    forall c | c in h'.commits ensures CommitMade(h', n, c) {
      if c in h.commits { CommitMadeGrows(h, h', n, c); }
    }
    forall b, a | b in h'.votes && a in h'.acks ensures VoteKeeps(h', b, a) {
      if b in h.votes && a in h.acks { VoteKeepsGrows(h, h', n, b, a); }
    }
  }

  // ----- standing and voting -----

  /** A server stands for election with its log and votes for itself. */
  function WithStanding(h: History, b: Ballot, log: seq<Entry>): History {
    h.(candidacies := h.candidacies[b := log], votes := h.votes[b := b.server])
  }

  lemma AddStanding(h: History, n: nat, b: Ballot, log: seq<Entry>)
    requires HistoryOk(h, n) && b !in h.candidacies && b !in h.votes && b.server < n
    requires Traced(h.logs, log) && TermsBelow(log, b.term)
    requires forall a :: a in h.acks && Binds(h, b, a) ==>
               Agree(log, h.logs[a.term], a.index) || Overridden(h, a, b.term)
    ensures HistoryOk(WithStanding(h, b, log), n) && Extends(h, WithStanding(h, b, log), b.server)
  {
    var h' := WithStanding(h, b, log);
    forall a | a in h'.acks ensures VoteKeeps(h', b, a) {
      if Binds(h', b, a) && Overridden(h, a, b.term) {
        assert AckOk(h, n, a);
        OverriddenGrows(h, h', n, a, b.term);
      }
    }
    NewHistoryOk(h, h', n);
  }

  function WithVote(h: History, b: Ballot, candidate: nat): History {
    h.(votes := h.votes[b := candidate])
  }

  lemma AddVote(h: History, n: nat, b: Ballot, candidate: nat)
    requires HistoryOk(h, n) && b !in h.votes && b.server < n && candidate < n
    requires Ballot(b.term, candidate) in h.candidacies
    requires forall a :: a in h.acks && Binds(h, b, a) && b.term !in h.elections ==>
               Agree(h.candidacies[Ballot(b.term, candidate)], h.logs[a.term], a.index) || Overridden(h, a, b.term)
    ensures HistoryOk(WithVote(h, b, candidate), n) && Extends(h, WithVote(h, b, candidate), b.server)
  {
    var h' := WithVote(h, b, candidate);
    forall a | a in h'.acks ensures VoteKeeps(h', b, a) { NewVoteKeeps(h, n, b, candidate, a); }
    NewHistoryOk(h, h', n);
  }

  lemma NewVoteKeeps(h: History, n: nat, b: Ballot, candidate: nat, a: Ack)
    requires HistoryOk(h, n) && b !in h.votes && a in h.acks && Ballot(b.term, candidate) in h.candidacies
    requires Binds(h, b, a) && b.term !in h.elections ==>
               Agree(h.candidacies[Ballot(b.term, candidate)], h.logs[a.term], a.index) || Overridden(h, a, b.term)
    ensures VoteKeeps(WithVote(h, b, candidate), b, a)
  {
    var h' := WithVote(h, b, candidate);
    if b.term in h.elections { assert ElectionOk(h, n, b.term); }
    if Binds(h', b, a) && Overridden(h, a, b.term) { OverriddenGrows(h, h', n, a, b.term); }
  }

  // ----- winning -----

  /** The election of a leader, which holds its own log from the start. */
  function WithWin(h: History, t: nat, e: Election): History
    requires e.log != []
  {
    h.(elections := h.elections[t := e], logs := h.logs[t := e.log],
       acks := h.acks + AcksUpTo(e.leader, t, |e.log| - 1))
  }

  lemma AddWin(h: History, n: nat, t: nat, e: Election)
    requires HistoryOk(h, n) && t !in h.elections && t >= 1 && e.leader < n && e.log != []
    requires Ballot(t, e.leader) in h.candidacies && h.candidacies[Ballot(t, e.leader)] == e.log
    requires Majority(n, e.voters)
    requires forall v :: v in e.voters ==> Ballot(t, v) in h.votes && h.votes[Ballot(t, v)] == e.leader
    requires forall b :: b in h.votes && b.server == e.leader ==> b.term <= t
    ensures HistoryOk(WithWin(h, t, e), n) && Extends(h, WithWin(h, t, e), e.leader)
  {
    NewElectionOk(h, n, t, e);
    NewHistoryOk(h, WithWin(h, t, e), n);
  }

  lemma NewElectionOk(h: History, n: nat, t: nat, e: Election)
    requires HistoryOk(h, n) && t !in h.elections && t >= 1 && e.leader < n && e.log != []
    requires Ballot(t, e.leader) in h.candidacies && h.candidacies[Ballot(t, e.leader)] == e.log
    requires Majority(n, e.voters)
    requires forall v :: v in e.voters ==> Ballot(t, v) in h.votes && h.votes[Ballot(t, v)] == e.leader
    ensures ElectionOk(WithWin(h, t, e), n, t)
  {
    assert CandidacyOk(h, Ballot(t, e.leader));
    TracedOrdered(h, n, e.log);
    TracedGrown(h.logs, WithWin(h, t, e).logs, e.log);
  }

  // ----- replicating -----

  /** A leader appends an entry of its term to its log. */
  function WithEntry(h: History, t: nat, entry: Entry): History
    requires t in h.logs && t in h.elections
  {
    h.(logs := h.logs[t := h.logs[t] + [entry]],
       acks := h.acks + AcksUpTo(h.elections[t].leader, t, |h.logs[t]|))
  }

  lemma AddEntry(h: History, n: nat, t: nat, entry: Entry)
    requires HistoryOk(h, n) && t in h.elections && entry.term == t
    requires forall b :: b in h.votes && b.server == h.elections[t].leader ==> b.term <= t
    ensures HistoryOk(WithEntry(h, t, entry), n) && Extends(h, WithEntry(h, t, entry), h.elections[t].leader)
  {
    EntryOk(h, n, t, entry);
    NewHistoryOk(h, WithEntry(h, t, entry), n);
  }

  lemma EntryOk(h: History, n: nat, t: nat, entry: Entry)
    requires HistoryOk(h, n) && t in h.elections && entry.term == t
    ensures ElectionOk(WithEntry(h, t, entry), n, t)
  {
    var h' := WithEntry(h, t, entry);
    var log, log' := h.logs[t], h'.logs[t];
    assert ElectionOk(h, n, t);
    TracedGrown(h.logs, h'.logs, log);
    forall i | 1 <= i < |log'| ensures TracedAt(h'.logs, log', i) {
      if i < |log| {
        assert TracedAt(h'.logs, log, i);
        AgreeGrown(h'.logs[log[i].term], log, log', i);
      }
    }
    forall i, j | 0 <= i < j < |log'| ensures log'[i].term <= log'[j].term {
      OwnTermAfterWin(h, n, t, i);
    }
  }

  function AcksUpTo(server: nat, t: nat, index: nat): set<Ack> {
    set k: nat {:trigger Ack(server, t, k)} | k <= index :: Ack(server, t, k)
  }

  function WithAcks(h: History, server: nat, t: nat, index: nat): History {
    h.(acks := h.acks + AcksUpTo(server, t, index))
  }

  lemma AddAcks(h: History, n: nat, server: nat, t: nat, index: nat)
    requires HistoryOk(h, n) && server < n && t in h.logs && index < |h.logs[t]|
    requires forall b :: b in h.votes && b.server == server ==> b.term <= t
    ensures HistoryOk(WithAcks(h, server, t, index), n) && Extends(h, WithAcks(h, server, t, index), server)
  {
    NewHistoryOk(h, WithAcks(h, server, t, index), n);
  }

  // ----- committing -----

  function WithCommit(h: History, c: Commit): History {
    h.(commits := h.commits + {c})
  }

  lemma AddCommit(h: History, n: nat, c: Commit, i: nat)
    requires HistoryOk(h, n) && CommitMade(h, n, c)
    ensures HistoryOk(WithCommit(h, c), n) && Extends(h, WithCommit(h, c), i)
  {
    var h' := WithCommit(h, c);
    assert Holders(h', n, c.term, c.index) == Holders(h, n, c.term, c.index);
    NewHistoryOk(h, h', n);
  }
}
