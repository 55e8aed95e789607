/** The inductive invariant behind the Raft safety theorems: a history of what has happened in a
    run so far, and what ties the servers and messages of a cluster to it. */
module RaftInvariant {
  import opened RaftServer
  import opened RaftCluster
  import opened Quorum

  datatype Ballot = Ballot(term: nat, server: nat)
  datatype Ack = Ack(server: nat, term: nat, index: nat)
  datatype Commit = Commit(term: nat, index: nat)
  datatype Election = Election(leader: nat, log: seq<Entry>, voters: set<nat>)

  datatype History = History(
    candidacies: map<Ballot, seq<Entry>>,  // the log a server stood with in a term
    votes: map<Ballot, nat>,               // whom a server voted for in a term
    elections: map<nat, Election>,         // who won a term, with which log, by whose votes
    logs: map<nat, seq<Entry>>,            // the leader's log, as far as it grew in its term
    acks: set<Ack>,                        // a server held a leader's log up to an index in its term
    commits: set<Commit>)                  // a leader committed up to an index of its own term

  function NoHistory(): History {
    History(map[], map[], map[], map[], {}, {})
  }

  // ----- logs -----

  /** Both logs reach index `i` and are the same up to it. */
  predicate Agree(a: seq<Entry>, b: seq<Entry>, i: nat) {
    i < |a| && i < |b| && a[..i + 1] == b[..i + 1]
  }

  /** The prefix up to `i` comes from the leader of the term at `i`. */
  predicate TracedAt(logs: map<nat, seq<Entry>>, log: seq<Entry>, i: nat)
    requires i < |log|
  {
    log[i].term in logs && Agree(log, logs[log[i].term], i)
  }

  predicate Traced(logs: map<nat, seq<Entry>>, log: seq<Entry>) {
    && log != [] && log[0] == Sentinel(0)
    && forall i :: 1 <= i < |log| ==> TracedAt(logs, log, i)
  }

  /** Every term in the log is below `bound`. */
  predicate TermsBelow(log: seq<Entry>, bound: nat) {
    forall i :: 0 <= i < |log| ==> log[i].term < bound
  }

  predicate Ordered(log: seq<Entry>) {
    forall i, j :: 0 <= i < j < |log| ==> log[i].term <= log[j].term
  }

  // ----- history -----

  predicate ElectionOk(h: History, n: nat, t: nat)
    requires t in h.elections && t in h.logs
  {
    var e, log := h.elections[t], h.logs[t];
    && t >= 1
    && e.leader < n
    && Ballot(t, e.leader) in h.candidacies
    && h.candidacies[Ballot(t, e.leader)] == e.log
    && Majority(n, e.voters)
    && (forall v :: v in e.voters ==> Ballot(t, v) in h.votes && h.votes[Ballot(t, v)] == e.leader)
    && e.log <= log
    && TermsBelow(e.log, t)
    && (forall k :: |e.log| <= k < |log| ==> log[k].term == t)
    && Traced(h.logs, log)
    && Ordered(log)
  }

  predicate BallotOk(h: History, n: nat, b: Ballot)
    requires b in h.votes
  {
    b.server < n && h.votes[b] < n && Ballot(b.term, h.votes[b]) in h.candidacies
  }

  predicate CandidacyOk(h: History, b: Ballot)
    requires b in h.candidacies
  {
    Traced(h.logs, h.candidacies[b]) && TermsBelow(h.candidacies[b], b.term)
  }

  predicate AckOk(h: History, n: nat, a: Ack) {
    && a.server < n && a.term in h.logs && a.index < |h.logs[a.term]|
    && forall k: nat :: k <= a.index ==> Ack(a.server, a.term, k) in h.acks
  }

  /** Some leader between the term of `a` and `bound` won with a log that lacks the entry acknowledged. */
  predicate Overridden(h: History, a: Ack, bound: nat)
    requires a.term in h.logs
  {
    exists u :: u in h.elections && a.term < u < bound
                && !Agree(h.elections[u].log, h.logs[a.term], a.index)
  }

  /** The vote decided, or may still decide, the election of its term. */
  predicate Counted(h: History, b: Ballot) {
    b.term !in h.elections || b.server in h.elections[b.term].voters
  }

  /** A voter that had acknowledged an entry of a leader's own term votes for a log that has it. */
  predicate VoteKeeps(h: History, b: Ballot, a: Ack)
    requires b in h.votes && Ballot(b.term, h.votes[b]) in h.candidacies
  {
    Binds(h, b, a) ==>
      Agree(h.candidacies[Ballot(b.term, h.votes[b])], h.logs[a.term], a.index)
      || Overridden(h, a, b.term)
  }

  /** The acknowledgement came before the vote, of the same server, and was of the leader's own term. */
  predicate Binds(h: History, b: Ballot, a: Ack) {
    && a.term in h.logs && a.index < |h.logs[a.term]| && h.logs[a.term][a.index].term == a.term
    && a.server == b.server && a.term < b.term && Counted(h, b)
  }

  /** The servers that acknowledged index `i` of the log of term `t`. */
  function Holders(h: History, n: nat, t: nat, i: nat): set<nat> {
    set s: nat | s < n && Ack(s, t, i) in h.acks
  }

  predicate CommitMade(h: History, n: nat, c: Commit) {
    && c.term in h.logs && c.index < |h.logs[c.term]|
    && h.logs[c.term][c.index].term == c.term
    && Majority(n, Holders(h, n, c.term, c.index))
  }

  predicate HistoryOk(h: History, n: nat) {
    && h.logs.Keys == h.elections.Keys
    && (forall t {:trigger ElectionOk(h, n, t)} :: t in h.elections ==> ElectionOk(h, n, t))
    && (forall b {:trigger CandidacyOk(h, b)} :: b in h.candidacies ==> CandidacyOk(h, b))
    && (forall b {:trigger BallotOk(h, n, b)} :: b in h.votes ==> BallotOk(h, n, b))
    && (forall a {:trigger AckOk(h, n, a)} :: a in h.acks ==> AckOk(h, n, a))
    && (forall b, a {:trigger VoteKeeps(h, b, a)} :: b in h.votes && a in h.acks && BallotOk(h, n, b) ==> VoteKeeps(h, b, a))
    && (forall c {:trigger CommitMade(h, n, c)} :: c in h.commits ==> CommitMade(h, n, c))
  }

  // ----- servers -----

  /** Up to `index` the log is covered by a commit of a term up to `bound`. */
  predicate Covered(h: History, log: seq<Entry>, index: nat, bound: nat) {
    index == 0
    || exists c :: c in h.commits && c.term <= bound && index <= c.index
                   && c.term in h.logs && Agree(log, h.logs[c.term], index)
  }

  predicate LogOk(h: History, s: Server) {
    && s.snapshotLastIndex == 0 && s.snapshotLastTerm == 0
    && Traced(h.logs, s.log)
    && TermsBelow(s.log, s.currentTerm + 1)
    && s.commitIndex < |s.log|
    && Covered(h, s.log, s.commitIndex, s.currentTerm)
  }

  predicate BallotsOk(h: History, s: Server) {
    && (forall b :: b in h.votes && b.server == s.me ==> b.term <= s.currentTerm)
    && (forall b :: b in h.candidacies && b.server == s.me ==> b.term <= s.currentTerm)
    && var now := Ballot(s.currentTerm, s.me);
    && (if s.votedFor < 0 then now !in h.votes else now in h.votes && h.votes[now] == s.votedFor)
    && (now in h.candidacies ==>
          && s.votedFor == s.me
          && (s.currentTerm !in h.elections ==> s.log == h.candidacies[now])
          && (s.votesReceived == [] || (s.me < |s.votesReceived| && s.votesReceived[s.me]))
          && forall p {:trigger VotedFor(h, s, p)} :: 0 <= p < |s.votesReceived| && s.votesReceived[p] ==> VotedFor(h, s, p))
    && (s.currentTerm in h.elections && h.elections[s.currentTerm].leader == s.me ==>
          s.role == Leader || s.votesReceived == [])
  }

  predicate VotedFor(h: History, s: Server, p: nat) {
    Ballot(s.currentTerm, p) in h.votes && h.votes[Ballot(s.currentTerm, p)] == s.me
  }

  /** What the server acknowledged it still holds, unless a later leader lacked it. */
  predicate AckKept(h: History, s: Server, a: Ack) {
    && a.term in h.logs && a.term <= s.currentTerm
    && (Agree(s.log, h.logs[a.term], a.index) || Overridden(h, a, s.currentTerm + 1))
  }

  predicate AcksOk(h: History, s: Server) {
    forall a {:trigger AckKept(h, s, a)} ::
      a in h.acks && a.server == s.me ==> AckKept(h, s, a)
  }

  /** What a leader records about one peer. */
  predicate PeerOk(h: History, s: Server, p: nat)
    requires WellFormed(s) && p < s.n && s.currentTerm in h.elections
  {
    var won := |h.elections[s.currentTerm].log|;
    && s.matchIndex[p] < |s.log|
    && (s.matchIndex[p] <= s.commitIndex || Ack(p, s.currentTerm, s.matchIndex[p]) in h.acks)
    && (p == s.me ==> s.matchIndex[p] == |s.log| - 1)
    && (p != s.me ==>
          && 1 <= s.nextIndex[p] <= |s.log|
          && (s.nextIndex[p] == s.matchIndex[p] + 1 || s.matchIndex[p] < won)
          && (s.nextIndex[p] <= won || Ack(p, s.currentTerm, s.nextIndex[p] - 1) in h.acks))
  }

  predicate LeaderOk(h: History, s: Server)
    requires WellFormed(s)
  {
    s.role == Leader ==>
      && s.currentTerm in h.elections && s.currentTerm in h.logs
      && h.elections[s.currentTerm].leader == s.me
      && s.log == h.logs[s.currentTerm]
      && (forall p {:trigger PeerOk(h, s, p)} :: 0 <= p < s.n ==> PeerOk(h, s, p))
      && Majority(s.n, AtLeast(s.matchIndex, s.commitIndex))
  }

  predicate ServerOk(h: History, s: Server) {
    WellFormed(s) && LogOk(h, s) && BallotsOk(h, s) && AcksOk(h, s) && LeaderOk(h, s)
  }

  // ----- messages -----

  predicate VoteCallOk(h: History, n: nat, caller: nat, callee: nat, a: VoteArgs) {
    && caller < n && callee < n && caller != callee && a.candidateId == caller
    && var b := Ballot(a.term, caller);
    && b in h.candidacies && h.candidacies[b] != []
    && a.lastLogIndex == |h.candidacies[b]| - 1
    && a.lastLogTerm == h.candidacies[b][a.lastLogIndex].term
  }

  predicate AppendCallOk(h: History, n: nat, caller: nat, callee: nat, a: AppendArgs) {
    && caller < n && callee < n && caller != callee
    && a.term in h.elections && a.term in h.logs
    && var e, log, last := h.elections[a.term], h.logs[a.term], a.prevLogIndex + |a.entries|;
    && e.leader == caller
    && |e.log| <= last + 1 <= |log|
    && a.prevLogTerm == log[a.prevLogIndex].term
    && a.entries == log[a.prevLogIndex + 1..last + 1]
    && a.leaderCommit <= last
    && Covered(h, log, a.leaderCommit, a.term)
    && (a.prevLogIndex < |e.log| || Ack(callee, a.term, a.prevLogIndex) in h.acks)
  }

  predicate CallOk(h: History, n: nat, call: Call) {
    match call
    case VoteCall(caller, _, callee, a) => VoteCallOk(h, n, caller, callee, a)
    case AppendCall(caller, _, callee, a) => AppendCallOk(h, n, caller, callee, a)
  }

  predicate ReplyOk(h: History, n: nat, reply: Reply) {
    CallOk(h, n, reply.call) &&
    match reply
    case Voted(call, r) =>
      call.VoteCall? && (r.granted ==> var b := Ballot(call.vote.term, call.callee);
                                       b in h.votes && h.votes[b] == call.caller)
    case Appended(call, r) =>
      call.AppendCall? &&
      var a := call.append;
      if r.success then Ack(call.callee, a.term, a.prevLogIndex + |a.entries|) in h.acks
      else r.term <= a.term ==>
        a.prevLogIndex < |h.elections[a.term].log| && 1 <= r.failedFirstIndex <= a.prevLogIndex
  }

  /** The reply tells the leader that index was replicated. */
  predicate Confirms(r: Reply, a: Ack) {
    && r.Appended? && r.call.AppendCall? && r.appended.success
    && r.call.callee == a.server && r.call.append.term == a.term
    && a.index <= r.call.append.prevLogIndex + |r.call.append.entries|
  }

  /** Every acknowledgement is a successful reply, or the leader's own. */
  predicate AckBacked(replies: set<Reply>, h: History, a: Ack) {
    (a.term in h.elections && h.elections[a.term].leader == a.server) || exists r :: r in replies && Confirms(r, a)
  }

  /** A waiting call belongs to an incarnation that has stood for election or won one. */
  predicate EpochOk(c: Cluster, call: Call)
    requires Shaped(c)
  {
    && call.caller < |c.epochs|
    && call.epoch <= c.epochs[call.caller]
    && (call.VoteCall? && call.epoch == c.epochs[call.caller] ==>
          |c.servers[call.caller].votesReceived| == |c.servers|)
  }

  predicate Inv(c: Cluster, h: History) {
    && Shaped(c)
    && var n := |c.servers|;
    && HistoryOk(h, n)
    && (forall i :: 0 <= i < n ==> c.servers[i].me == i && c.servers[i].n == n && ServerOk(h, c.servers[i]))
    && (forall call {:trigger CallOk(h, n, call)} {:trigger EpochOk(c, call)} ::
          call in c.calls ==> CallOk(h, n, call) && EpochOk(c, call))
    && (forall r {:trigger ReplyOk(h, n, r)} :: r in c.replies ==> ReplyOk(h, n, r) && r.call in c.calls)
    && (forall a {:trigger AckBacked(c.replies, h, a)} :: a in h.acks ==> AckBacked(c.replies, h, a))
  }

  // ----- growth of the history -----

  /** `h'` records everything `h` does; what is new was done by server `i`. */
  predicate Extends(h: History, h': History, i: nat) {
    && Grows(h, h')
    && (forall b :: b in h'.candidacies && b !in h.candidacies ==> b.server == i)
    && (forall b :: b in h'.votes && b !in h.votes ==> b.server == i)
    && (forall a :: a in h'.acks && a !in h.acks ==> a.server == i)
    && (forall t :: t in h'.elections && t !in h.elections ==> h'.elections[t].leader == i)
    && (forall t :: t in h.logs && t in h'.logs && h'.logs[t] != h.logs[t] ==>
          t in h'.elections && h'.elections[t].leader == i)
  }

  predicate Grows(h: History, h': History) {
    && (forall b :: b in h.candidacies ==> b in h'.candidacies && h'.candidacies[b] == h.candidacies[b])
    && (forall b :: b in h.votes ==> b in h'.votes && h'.votes[b] == h.votes[b])
    && (forall t :: t in h.elections ==> t in h'.elections && h'.elections[t] == h.elections[t])
    && (forall t :: t in h.logs ==> t in h'.logs && h.logs[t] <= h'.logs[t])
    && h.acks <= h'.acks
    && h.commits <= h'.commits
  }
}
