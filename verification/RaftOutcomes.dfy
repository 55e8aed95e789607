/** What every region of a server gives its caller, read off the absolute log: index by index, with or
    without compaction. */
module RaftOutcomes {
  import opened RaftServer
  import opened Quorum

  /** The server has an entry, or its sentinel, at the absolute index. */
  predicate Has(s: Server, index: nat) {
    s.snapshotLastIndex <= index < LogLength(s)
  }

  /** The absolute logs are the same from index `from` to before `to`. */
  predicate SameBetween(s: Server, t: Server, from: nat, to: nat) {
    forall k :: from <= k < to ==> Has(s, k) && Has(t, k) && At(s, k) == At(t, k)
  }

  // ----- votes -----

  /** Last entries compared as the paper does: the later term, then the longer log. */
  predicate AtLeastAsLate(term: nat, index: nat, s: Server)
    requires s.log != []
  {
    var last := s.log[|s.log| - 1];
    term > last.term || (term == last.term && index >= s.snapshotLastIndex + |s.log| - 1)
  }

  /** A vote is granted if and only if the term is not stale, nobody else has the vote of that term, and the
      candidate's last entry is at least as late as the voter's. */
  lemma VoteGrantedIff(s: Server, a: VoteArgs)
    requires WellFormed(s)
    ensures var (t, r) := RequestVote(s, a);
            && (r.granted <==> && a.term >= s.currentTerm
                               && (a.term == s.currentTerm ==> s.votedFor == -1 || s.votedFor == a.candidateId)
                               && AtLeastAsLate(a.lastLogTerm, a.lastLogIndex, s))
            && r.term == s.currentTerm && t.currentTerm == Max(s.currentTerm, a.term)
            && (r.granted ==> t.votedFor == a.candidateId)
            && (!r.granted && a.term > s.currentTerm ==> t.votedFor == -1)
            && (a.term > s.currentTerm ==> t.role == Follower)
            && (!r.granted && a.term <= s.currentTerm ==> t == s)
            && t == s.(currentTerm := t.currentTerm, votedFor := t.votedFor, role := t.role)
  {
  }

  /** Of any two servers, whatever their logs, one would get the other's vote by standing in a later term. */
  lemma OneOfTwoVotes(s: Server, u: Server)
    requires WellFormed(s) && WellFormed(u)
    ensures var a, b := VoteRequest(StartElection(s)), VoteRequest(StartElection(u));
            a.term > u.currentTerm && b.term > s.currentTerm ==> RequestVote(u, a).1.granted || RequestVote(s, b).1.granted
  {
  }

  /** A candidate asks for the next term, with its last entry, and starts from its own vote. */
  lemma ElectionOutcome(s: Server)
    requires WellFormed(s)
    ensures var t, a := StartElection(s), VoteRequest(StartElection(s));
            && t.currentTerm == a.term == s.currentTerm + 1 && a.candidateId == s.me && t.votedFor == s.me && t.role == Candidate
            && TrueAt(t.votesReceived) == {s.me} && |t.votesReceived| == s.n
            && t == s.(currentTerm := t.currentTerm, votedFor := t.votedFor, role := t.role, votesReceived := t.votesReceived)
            && Has(t, a.lastLogIndex) && !Has(t, a.lastLogIndex + 1) && a.lastLogTerm == At(t, a.lastLogIndex).term
  {
  }

  /** A granted vote of this term makes a leader if and only if the voters are then at least half; the new
      leader supposes that every peer has its whole log, and has its commit index confirmed. */
  lemma VoteWinsIff(s: Server, peer: nat, term: nat, r: VoteReply)
    requires WellFormed(s) && (CountsVote(s, term, r) ==> peer < |s.votesReceived|)
    ensures var t := ReceiveVote(s, peer, term, r);
            && (r.term > s.currentTerm ==> t == s.(currentTerm := r.term, votedFor := -1, role := Follower))
            && (r.term <= s.currentTerm && (!r.granted || s.role == Leader || term != s.currentTerm) ==> t == s)
            && (r.term <= s.currentTerm && r.granted && s.role != Leader && term == s.currentTerm ==>
                  && TrueAt(t.votesReceived) == TrueAt(s.votesReceived) + {peer}
                  && t == s.(role := t.role, votesReceived := t.votesReceived, nextIndex := t.nextIndex, matchIndex := t.matchIndex)
                  && (t.role == Leader <==> 2 * |TrueAt(t.votesReceived)| >= s.n)
                  && (t.role == Leader ==> forall p :: 0 <= p < s.n ==>
                        && t.nextIndex[p] == LogLength(s)
                        && t.matchIndex[p] == if p == s.me then LogLength(s) - 1 else s.commitIndex))
  {
    if CountsVote(s, term, r) {
      var votes := s.votesReceived[peer := true];
      CountTrueIsSize(votes);
      assert TrueAt(votes) == TrueAt(s.votesReceived) + {peer};
    }
  }

  // ----- replication -----

  /** A leader puts the command at the index it returns, which is the end of its log, and nowhere else;
      any other server does nothing. */
  lemma StartOutcome(s: Server, command: Command)
    requires WellFormed(s)
    ensures var (t, started) := Start(s, command);
            && started.isLeader == (s.role == Leader) && started.term == s.currentTerm == t.currentTerm && t.role == s.role
            && (!started.isLeader ==> t == s && started.index == s.commitIndex)
            && (started.isLeader ==>
                  && started.index == LogLength(s) && LogLength(t) == started.index + 1
                  && At(t, started.index) == Entry(s.currentTerm, command)
                  && SameBetween(s, t, s.snapshotLastIndex, started.index)
                  && t == s.(log := t.log, matchIndex := s.matchIndex[s.me := started.index]))
  {
  }

  /** The message for a peer holds the leader's log from `nextIndex` to its end, and the term before it. */
  lemma EntriesOutcome(s: Server, peer: nat)
    requires peer < |s.nextIndex| && SendsEntries(s, peer) && s.nextIndex[peer] <= LogLength(s)
    ensures var a := EntriesFor(s, peer);
            && a.prevLogIndex + 1 == s.nextIndex[peer] && a.prevLogIndex + 1 + |a.entries| == LogLength(s)
            && a.prevLogTerm == At(s, a.prevLogIndex).term
            && (forall j :: 0 <= j < |a.entries| ==> a.entries[j] == At(s, a.prevLogIndex + 1 + j))
            && a.term == s.currentTerm && a.leaderCommit == s.commitIndex && a.leaderId == s.me
  {
  }

  /** The log has an entry of the same term at the place of entry `j`. */
  predicate Matches(log: seq<Entry>, at: nat, entries: seq<Entry>, j: nat) {
    j < |entries| && at + j < |log| && log[at + j].term == entries[j].term
  }

  /** What a merge gives: the log itself if every entry is matched, else the log up to the first entry that
      is not, and from there what was sent. */
  lemma {:induction false} MergeOutcome(log: seq<Entry>, at: nat, entries: seq<Entry>) returns (d: nat)
    requires at <= |log|
    ensures d <= |entries| && (d < |entries| ==> !Matches(log, at, entries, d))
    ensures forall j {:trigger Matches(log, at, entries, j)} :: 0 <= j < d ==> Matches(log, at, entries, j)
    ensures at + d <= |log|
    ensures Merge(log, at, entries) == if d == |entries| then log else log[..at + d] + entries[d..]
    decreases |entries|
  {
    if entries == [] || !Matches(log, at, entries, 0) {
      d := 0;
    } else {
      var rest := entries[1..];
      d := MergeOutcome(log, at + 1, rest);
      forall j | 0 <= j < d + 1 ensures Matches(log, at, entries, j) {
        if j > 0 { assert Matches(log, at + 1, rest, j - 1); }
      }
      if d < |rest| { assert !Matches(log, at + 1, rest, d) && rest[d] == entries[d + 1]; }
      d := d + 1;
    }
  }

  /** `AppendEntries` succeeds if and only if the term is not stale and the entry before the new ones is there,
      above the snapshot, with the term the leader says. Then the log is the merge and the commit index follows
      the leader's as far as the log goes; otherwise log and commit index stay. */
  lemma AppendOutcome(s: Server, a: AppendArgs)
    requires WellFormed(s)
    ensures var (t, r) := AppendEntries(s, a);
            && (r.success <==> a.term >= s.currentTerm && Has(s, a.prevLogIndex) && At(s, a.prevLogIndex).term == a.prevLogTerm)
            && r.term == s.currentTerm && t.currentTerm == Max(s.currentTerm, a.term)
            && (a.term >= s.currentTerm ==> t.role == Follower)
            && (a.term < s.currentTerm ==> t == s)
            && t.votedFor == (if a.term > s.currentTerm then -1 else s.votedFor)
            && t == s.(currentTerm := t.currentTerm, votedFor := t.votedFor, role := t.role, log := t.log,
                       commitIndex := t.commitIndex)
            && (!r.success ==> t.log == s.log && t.commitIndex == s.commitIndex)
            && (r.success ==>
                  && t.log == Merge(s.log, a.prevLogIndex + 1 - s.snapshotLastIndex, a.entries)
                  && t.commitIndex == (if a.leaderCommit <= s.commitIndex then s.commitIndex
                                       else Min(a.leaderCommit, LogLength(t) - 1)))
  {
  }

  /** A message from below the snapshot is refused with the snapshot's own index and term. */
  lemma CoveredOutcome(s: Server, a: AppendArgs)
    requires WellFormed(s) && a.term >= s.currentTerm && a.prevLogIndex < s.snapshotLastIndex
    ensures AppendEntries(s, a).1 == AppendReply(s.currentTerm, false, s.snapshotLastTerm, s.snapshotLastIndex)
  {
  }

  /** The message is from this leadership and starts at the leader's position for the peer. */
  predicate Awaited(s: Server, peer: nat, a: AppendArgs)
    requires peer < |s.nextIndex|
  {
    s.role == Leader && s.currentTerm == a.term && s.nextIndex[peer] == a.prevLogIndex + 1
  }

  /** A reply of a later term ends the leadership; a reply to anything but the leader's last position for the peer
      is ignored; a refusal moves the position to where it points; after a success the next message starts
      where the confirmed one ended. */
  lemma ReplyOutcome(s: Server, peer: nat, a: AppendArgs, r: AppendReply)
    requires WellFormed(s) && peer < s.n
    requires TakesAppendReply(s, peer, a, r) && r.success ==> MedianInLog(Matched(s, peer, a))
    ensures var t := ReceiveAppend(s, peer, a, r);
            && (r.term > s.currentTerm ==> t == s.(currentTerm := r.term, votedFor := -1, role := Follower))
            && (r.term <= s.currentTerm ==>
                  t == s.(nextIndex := t.nextIndex, matchIndex := t.matchIndex, commitIndex := t.commitIndex))
            && (r.term <= s.currentTerm && !Awaited(s, peer, a) ==> t == s)
            && (r.term <= s.currentTerm && Awaited(s, peer, a) ==>
                  && (!r.success ==> t == s.(nextIndex := s.nextIndex[peer := r.failedFirstIndex]))
                  && (r.success ==> t.nextIndex[peer] == t.matchIndex[peer] + 1 == a.prevLogIndex + 1 + |a.entries|)
                  && forall p :: 0 <= p < s.n && p != peer ==> t.nextIndex[p] == s.nextIndex[p] && t.matchIndex[p] == s.matchIndex[p])
  {
  }

  /** Terms never fall along the log, nor go beyond the current one. */
  predicate InOrder(s: Server) {
    && (forall i, j :: 0 <= i < j < |s.log| ==> s.log[i].term <= s.log[j].term)
    && (forall i :: 0 <= i < |s.log| ==> s.log[i].term <= s.currentTerm)
  }

  /** Index `i` is an entry of the current term that a majority of the peers are known to hold. */
  predicate Committable(s: Server, i: nat) {
    Has(s, i) && At(s, i).term == s.currentTerm && Majority(|s.matchIndex|, AtLeast(s.matchIndex, i))
  }

  /** The commit index moves only to such an entry, and to no less than every one of them. */
  lemma CommitOutcome(s: Server)
    requires WellFormed(s) && MedianInLog(s)
    ensures var t := UpdateCommitIndex(s);
            && t == s.(commitIndex := t.commitIndex)
            && (t.commitIndex != s.commitIndex ==> Committable(s, t.commitIndex))
            && (InOrder(s) ==> forall i: nat {:trigger Committable(s, i)} :: Committable(s, i) ==> i <= t.commitIndex)
  {
    var m := Median(s.matchIndex);
    MedianIsMajority(s.matchIndex, m);
    forall i: nat | InOrder(s) && Committable(s, i) ensures i <= UpdateCommitIndex(s).commitIndex {
      MedianIsMajority(s.matchIndex, i);
      assert At(s, i).term <= At(s, m).term <= s.currentTerm;
    }
  }

  // ----- snapshots and restarts -----

  /** A snapshot by the service covers the log up to its index, and leaves the absolute log as it is. */
  lemma SnapshotOutcome(s: Server, index: nat, data: Snapshot)
    requires index < LogLength(s)
    ensures var t := TakeSnapshot(s, index, data);
            && (index <= s.snapshotLastIndex ==> t == s)
            && (index > s.snapshotLastIndex ==>
                  && t.snapshotLastIndex == index && t.snapshot == data && t.snapshotLastTerm == At(s, index).term
                  && t.log[0] == Sentinel(t.snapshotLastTerm)
                  && LogLength(t) == LogLength(s) && SameBetween(s, t, index + 1, LogLength(s))
                  && t == s.(log := t.log, snapshot := data, snapshotLastIndex := index, snapshotLastTerm := t.snapshotLastTerm))
  {
  }

  /** A snapshot from a leader is taken if and only if it is not of a stale term and covers more. A log that
      reaches it with its term keeps everything after it; any other log ends at it. */
  lemma InstallOutcome(s: Server, a: InstallArgs)
    ensures var t := InstallSnapshot(s, a);
            var last := a.lastIncludedIndex;
            && (a.term < s.currentTerm || last <= s.snapshotLastIndex ==> t == s)
            && (a.term >= s.currentTerm && last > s.snapshotLastIndex ==>
                  && t.snapshotLastIndex == last && t.snapshotLastTerm == a.lastIncludedTerm && t.snapshot == a.data
                  && !t.isSnapshotApplied && t.commitIndex == Max(s.commitIndex, last)
                  && Has(t, last) && At(t, last) == Sentinel(a.lastIncludedTerm)
                  && (if Has(s, last) && At(s, last).term == a.lastIncludedTerm
                      then LogLength(t) == LogLength(s) && SameBetween(s, t, last + 1, LogLength(s))
                      else LogLength(t) == last + 1)
                  && t == s.(log := t.log, commitIndex := t.commitIndex, isSnapshotApplied := false, snapshot := a.data,
                             snapshotLastIndex := last, snapshotLastTerm := a.lastIncludedTerm))
  {
  }

  /** What is on a disk is what a server started from it would save again, and starting from what a server
      saved gives back its term, vote, log and snapshot. */
  lemma RestartOutcome(me: nat, n: nat, d: Disk, s: Server)
    ensures DiskOf(Boot(me, n, d)) == d
    ensures var t := Boot(s.me, s.n, DiskOf(s));
            && t.me == s.me && t.n == s.n && t.currentTerm == s.currentTerm && t.votedFor == s.votedFor
            && LogLength(t) == LogLength(s) && SameBetween(s, t, s.snapshotLastIndex, LogLength(s))
            && t.snapshot == s.snapshot && t.snapshotLastIndex == s.snapshotLastIndex && t.snapshotLastTerm == s.snapshotLastTerm
            && t.role == Follower && t.commitIndex == t.lastApplied == s.snapshotLastIndex && t.isSnapshotApplied
  {
  }

  /** A snapshot gets a peer going again: whoever takes what a leader sends accepts the leader's entries from
      there on. */
  lemma EntriesAfterSnapshot(l: Server, f: Server, peer: nat)
    requires WellFormed(l) && WellFormed(f) && peer < l.n && f.currentTerm <= l.currentTerm
    requires l.snapshotLastTerm == l.log[0].term && f.snapshotLastIndex < l.snapshotLastIndex
    requires l.nextIndex[peer] == l.snapshotLastIndex + 1
    ensures WellFormed(InstallSnapshot(f, SnapshotFor(l)))
    ensures AppendEntries(InstallSnapshot(f, SnapshotFor(l)), EntriesFor(l, peer)).1.success
    ensures InstallSnapshot(f, SnapshotFor(l)).snapshot == l.snapshot
  {
    EntriesOutcome(l, peer);
    InstallOutcome(f, SnapshotFor(l));
    AppendOutcome(InstallSnapshot(f, SnapshotFor(l)), EntriesFor(l, peer));
  }

  /** After its reply to the leader's current snapshot the peer is sent entries again; no index is lowered, and
      those of other peers stay. A reply of a later term ends the leadership, and any other is ignored. */
  lemma InstallReplyOutcome(s: Server, peer: nat, a: InstallArgs, term: nat)
    requires WellFormed(s) && peer < s.n && (TakesInstallReply(s, a, term) ==> MedianInLog(Supplied(s, peer, a)))
    ensures var t := ReceiveInstall(s, peer, a, term);
            && (term > s.currentTerm ==> t == s.(currentTerm := term, votedFor := -1, role := Follower))
            && (term <= s.currentTerm ==>
                  t == s.(nextIndex := t.nextIndex, matchIndex := t.matchIndex, commitIndex := t.commitIndex)
                  && |t.nextIndex| == |t.matchIndex| == s.n)
            && (term <= s.currentTerm && (s.role != Leader || a.term != s.currentTerm || a.lastIncludedIndex != s.snapshotLastIndex) ==>
                  t == s)
            && (term <= s.currentTerm && s.role == Leader && a.term == s.currentTerm && a.lastIncludedIndex == s.snapshotLastIndex ==>
                  && SendsEntries(t, peer) && t.matchIndex[peer] >= s.snapshotLastIndex
                  && (s.nextIndex[peer] > s.snapshotLastIndex ==> t.nextIndex[peer] == s.nextIndex[peer])
                  && (s.nextIndex[peer] <= s.snapshotLastIndex ==> t.nextIndex[peer] == s.snapshotLastIndex + 1)
                  && forall p :: 0 <= p < s.n ==>
                       && s.matchIndex[p] <= t.matchIndex[p]
                       && (p != peer ==> t.nextIndex[p] == s.nextIndex[p] && t.matchIndex[p] == s.matchIndex[p]))
  {
  }
}
