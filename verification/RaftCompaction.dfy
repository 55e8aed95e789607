/** Log compaction is invisible: a server that has trimmed its log answers as one that never did. */
module RaftCompaction {
  import opened RaftServer
  import opened RaftInvariant
  import opened Quorum
  import A = RaftApply

  /** A full log cut at index `at`: a sentinel with the term at the cut, and the tail. */
  function Trim(log: seq<Entry>, at: nat): seq<Entry>
    requires at < |log|
  {
    [Sentinel(log[at].term)] + log[at + 1..]
  }

  /** `s` is the full server `u` with its log trimmed at the snapshot. */
  predicate Compacts(s: Server, u: Server) {
    && WellFormed(u) && u.log[0] == Sentinel(0) && u.snapshotLastIndex == 0 && u.snapshotLastTerm == 0
    && s.snapshotLastIndex < |u.log|
    && s.snapshotLastTerm == u.log[s.snapshotLastIndex].term
    && s.log == Trim(u.log, s.snapshotLastIndex)
    && s == u.(log := s.log, lastApplied := s.lastApplied, isSnapshotApplied := s.isSnapshotApplied,
               snapshotLastIndex := s.snapshotLastIndex, snapshotLastTerm := s.snapshotLastTerm, snapshot := s.snapshot)
  }

  /** Lengths and terms read through the snapshot offset are those of the full log. */
  lemma SameIndices(s: Server, u: Server)
    requires Compacts(s, u)
    ensures LogLength(s) == LogLength(u) && LastTerm(s) == LastTerm(u) && WellFormed(s)
    ensures forall k :: s.snapshotLastIndex <= k < |u.log| ==> At(s, k).term == u.log[k].term
    ensures forall k :: s.snapshotLastIndex < k < |u.log| ==> At(s, k) == u.log[k]
  {
  }

  /** `Snapshot` leaves the absolute log unchanged. */
  lemma SnapshotInvisible(s: Server, u: Server, index: nat, data: Snapshot)
    requires Compacts(s, u) && index < LogLength(s)
    ensures Compacts(TakeSnapshot(s, index, data), u)
  {
    SameIndices(s, u);
    if s.snapshotLastIndex < index {
      assert s.log[index - s.snapshotLastIndex + 1..] == u.log[index + 1..];
    }
  }

  lemma RequestVoteInvisible(s: Server, u: Server, a: VoteArgs)
    requires Compacts(s, u) && a.candidateId < u.n
    ensures WellFormed(s) && RequestVote(s, a).1 == RequestVote(u, a).1
    ensures Compacts(RequestVote(s, a).0, RequestVote(u, a).0)
  {
    SameIndices(s, u);
    VoteOutcome(s, a);
    VoteOutcome(u, a);
    CompactsSame(s, u, a.term, a.candidateId, Follower);
    CompactsSame(s, u, a.term, a.candidateId, s.role);
    CompactsSame(s, u, a.term, -1, Follower);
  }

  /** The vote goes to the candidate unless another has it or the voter's log is ahead. */
  lemma VoteOutcome(s: Server, a: VoteArgs)
    requires WellFormed(s)
    ensures var (t, r) := RequestVote(s, a);
            && r.term == s.currentTerm
            && (r.granted <==> a.term >= s.currentTerm && !LogOlder(s, a)
                               && (a.term > s.currentTerm || s.votedFor == -1 || s.votedFor == a.candidateId))
            && t == if r.granted then Standing(s, a.term, a.candidateId, if a.term > s.currentTerm then Follower else s.role)
                    else if a.term > s.currentTerm then Standing(s, a.term, -1, Follower) else s
  {
  }

  function Standing(s: Server, term: nat, vote: int, role: Role): Server {
    s.(currentTerm := term, votedFor := vote, role := role)
  }

  /** Trimming has to do with the log only. */
  lemma CompactsSame(s: Server, u: Server, term: nat, vote: int, role: Role)
    requires Compacts(s, u) && -1 <= vote < u.n
    ensures Compacts(Standing(s, term, vote, role), Standing(u, term, vote, role))
  {
  }

  lemma StartElectionInvisible(s: Server, u: Server)
    requires Compacts(s, u)
    ensures WellFormed(s) && VoteRequest(StartElection(s)) == VoteRequest(StartElection(u))
    ensures Compacts(StartElection(s), StartElection(u))
  {
    SameIndices(s, u);
  }

  lemma StartInvisible(s: Server, u: Server, command: Command)
    requires Compacts(s, u)
    ensures WellFormed(s) && Start(s, command).1 == Start(u, command).1
    ensures Compacts(Start(s, command).0, Start(u, command).0)
  {
    SameIndices(s, u);
  }

  /** A leader that still has the entries sends the same message. */
  lemma EntriesInvisible(s: Server, u: Server, peer: nat)
    requires Compacts(s, u) && peer < u.n && s.snapshotLastIndex < s.nextIndex[peer] <= LogLength(s)
    ensures EntriesFor(s, peer) == EntriesFor(u, peer)
  {
    SameIndices(s, u);
    assert s.log[s.nextIndex[peer] - s.snapshotLastIndex..] == u.log[s.nextIndex[peer]..];
  }

  lemma TrimGrown(log: seq<Entry>, cut: nat, entries: seq<Entry>)
    requires cut < |log|
    ensures Trim(log + entries, cut) == Trim(log, cut) + entries
  {
  }

  /** Merging commutes with trimming. */
  lemma {:induction false} MergeTrimmed(log: seq<Entry>, cut: nat, at: nat, entries: seq<Entry>)
    requires cut < at <= |log|
    ensures cut < |Merge(log, at, entries)| && Merge(log, at, entries)[cut] == log[cut]
    ensures Merge(log, at, entries)[0] == log[0]
    ensures Merge(Trim(log, cut), at - cut, entries) == Trim(Merge(log, at, entries), cut)
    decreases |entries|
  {
    if entries != [] {
      if at == |log| {
        TrimGrown(log, cut, entries);
      } else if log[at].term != entries[0].term {
        TrimGrown(log[..at], cut, entries);
        assert Trim(log[..at], cut) == Trim(log, cut)[..at - cut];
      } else {
        MergeTrimmed(log, cut, at + 1, entries[1..]);
      }
    }
  }

  /** The lowest index of a term in an ordered log. */
  predicate FirstOf(log: seq<Entry>, start: nat, first: nat) {
    first <= start < |log| && log[first].term == log[start].term
    && forall k :: 0 <= k < first ==> log[k].term < log[start].term
  }

  lemma {:induction false} LowestIsFirst(log: seq<Entry>, start: nat, i: nat, found: nat)
    requires Ordered(log) && start < |log| && i <= found <= start && log[found].term == log[start].term
    requires forall k :: i <= k < found ==> log[k].term != log[start].term
    ensures FirstOf(log, start, Lowest(log, i, log[start].term, found))
    decreases i
  {
    if i > 0 {
      if log[i - 1].term == log[start].term {
        LowestIsFirst(log, start, i - 1, i - 1);
      } else {
        LowestIsFirst(log, start, i - 1, found);
      }
    } else if found > 0 {
      forall k | 0 <= k < found ensures log[k].term < log[start].term {
        assert log[k].term != log[start].term;
      }
    }
  }

  lemma LowestFrom(log: seq<Entry>, start: nat)
    requires Ordered(log) && start < |log|
    ensures FirstOf(log, start, Lowest(log, start + 1, log[start].term, start))
  {
    assert Lowest(log, start + 1, log[start].term, start) == Lowest(log, start, log[start].term, start);
    LowestIsFirst(log, start, start, start);
  }

  lemma FirstIsOne(log: seq<Entry>, start: nat, x: nat, y: nat)
    requires FirstOf(log, start, x) && FirstOf(log, start, y)
    ensures x == y
  {
  }

  lemma TrimOrdered(log: seq<Entry>, cut: nat)
    requires Ordered(log) && cut < |log|
    ensures Ordered(Trim(log, cut))
  {
    var t := Trim(log, cut);
    assert forall k :: 0 <= k < |t| ==> t[k].term == log[cut + k].term;
  }

  lemma TrimmedFirst(log: seq<Entry>, cut: nat, start: nat, x: nat)
    requires cut <= x && start < |log| && FirstOf(log, start, x)
    ensures FirstOf(Trim(log, cut), start - cut, x - cut)
  {
    var t := Trim(log, cut);
    forall k | 0 <= k < |t| ensures t[k].term == log[cut + k].term {}
  }

  /** The index a refusal reports: the first of the term, but not below the snapshot nor below 1. */
  lemma RefusalInvisible(s: Server, u: Server, term: nat, start: nat)
    requires Compacts(s, u) && Ordered(u.log) && s.snapshotLastIndex <= start < |u.log|
    ensures start - s.snapshotLastIndex < |s.log|
    ensures var r, full := FailedReply(s, term, start - s.snapshotLastIndex), FailedReply(u, term, start);
            r.failedTerm == full.failedTerm
            && r.failedFirstIndex == Max(Max(full.failedFirstIndex, s.snapshotLastIndex), 1)
  {
    var cut := s.snapshotLastIndex;
    var at := start - cut;
    LowestFrom(u.log, start);
    TrimOrdered(u.log, cut);
    LowestFrom(s.log, at);
    var x, y := Lowest(u.log, start + 1, u.log[start].term, start), Lowest(s.log, at + 1, s.log[at].term, at);
    assert s.log[at].term == u.log[start].term;
    if u.log[start].term == u.log[cut].term {
      assert x <= cut;
    } else {
      assert u.log[cut].term < u.log[start].term;
      assert x > cut;
      TrimmedFirst(u.log, cut, start, x);
      FirstIsOne(s.log, at, x - cut, y);
      assert u.log[start].term != 0;
    }
  }

  /** `AppendEntries` at or above the snapshot: the same verdict, the same log and commit index, and
      a refusal that differs only where it would point into the snapshot. */
  lemma AppendEntriesInvisible(s: Server, u: Server, a: AppendArgs)
    requires Compacts(s, u) && a.prevLogIndex >= s.snapshotLastIndex
    ensures WellFormed(s) && Compacts(AppendEntries(s, a).0, AppendEntries(u, a).0)
    ensures var r, full := AppendEntries(s, a).1, AppendEntries(u, a).1;
            && r.term == full.term && r.success == full.success && r.failedTerm == full.failedTerm
            && (r.success || a.term < s.currentTerm ==> r == full)
            && (!r.success && a.term >= s.currentTerm && Ordered(u.log) ==>
                  r.failedFirstIndex == Max(Max(full.failedFirstIndex, s.snapshotLastIndex), 1))
  {
    SameIndices(s, u);
    if a.term >= s.currentTerm {
      var s1 := if a.term > s.currentTerm then BecomeFollower(s, a.term) else s.(role := Follower);
      var u1 := if a.term > u.currentTerm then BecomeFollower(u, a.term) else u.(role := Follower);
      ReplicateInvisible(s1, u1, a, s.currentTerm);
    }
  }

  /** The entry before the new ones is missing or of another term. */
  predicate Conflicts(u: Server, a: AppendArgs) {
    |u.log| <= a.prevLogIndex || u.log[a.prevLogIndex].term != a.prevLogTerm
  }

  lemma ReplicateInvisible(s: Server, u: Server, a: AppendArgs, term: nat)
    requires Compacts(s, u) && a.prevLogIndex >= s.snapshotLastIndex
    ensures Compacts(Replicate(s, a, term).0, Replicate(u, a, term).0)
    ensures var r, full := Replicate(s, a, term).1, Replicate(u, a, term).1;
            && r.term == full.term && r.success == full.success && r.failedTerm == full.failedTerm
            && (r.success ==> r == full)
            && (!r.success && Ordered(u.log) ==>
                  r.failedFirstIndex == Max(Max(full.failedFirstIndex, s.snapshotLastIndex), 1))
  {
    SameIndices(s, u);
    if Conflicts(u, a) {
      RefuseInvisible(s, u, a, term);
    } else {
      MergeTrimmed(u.log, s.snapshotLastIndex, a.prevLogIndex + 1, a.entries);
      AcceptInvisible(s, u, a, term);
    }
  }

  lemma SameAt(s: Server, u: Server, k: nat)
    requires Compacts(s, u) && s.snapshotLastIndex <= k < |u.log|
    ensures LogLength(s) == LogLength(u) == |u.log| && At(s, k).term == At(u, k).term
  {
  }

  lemma RefuseInvisible(s: Server, u: Server, a: AppendArgs, term: nat)
    requires Compacts(s, u) && a.prevLogIndex >= s.snapshotLastIndex && Conflicts(u, a)
    ensures Replicate(s, a, term).0 == s && Replicate(u, a, term).0 == u
    ensures var r, full := Replicate(s, a, term).1, Replicate(u, a, term).1;
            && r.term == full.term && !r.success && !full.success && r.failedTerm == full.failedTerm
            && (Ordered(u.log) ==> r.failedFirstIndex == Max(Max(full.failedFirstIndex, s.snapshotLastIndex), 1))
  {
    var start := if |u.log| <= a.prevLogIndex then |u.log| - 1 else a.prevLogIndex;
    SameAt(s, u, start);
    Refuses(s, a, term, start);
    Refuses(u, a, term, start);
    if Ordered(u.log) { RefusalInvisible(s, u, term, start); }
  }

  lemma Refuses(s: Server, a: AppendArgs, term: nat, start: nat)
    requires s.log != [] && s.snapshotLastIndex <= a.prevLogIndex && s.snapshotLastIndex <= start < LogLength(s)
    requires if LogLength(s) <= a.prevLogIndex then start == LogLength(s) - 1
             else start == a.prevLogIndex && At(s, start).term != a.prevLogTerm
    ensures Replicate(s, a, term).0 == s && Replicate(s, a, term).1.term == term && !Replicate(s, a, term).1.success
    ensures Replicate(s, a, term).1 == FailedReply(s, term, start - s.snapshotLastIndex)
    ensures Replicate(s, a, term).1.failedTerm == At(s, start).term
  {
  }

  lemma AcceptInvisible(s: Server, u: Server, a: AppendArgs, term: nat)
    requires Compacts(s, u) && s.snapshotLastIndex <= a.prevLogIndex < |u.log| && u.log[a.prevLogIndex].term == a.prevLogTerm
    requires At(s, a.prevLogIndex).term == a.prevLogTerm
    requires s.snapshotLastIndex < |Merge(u.log, a.prevLogIndex + 1, a.entries)|
    requires var m := Merge(u.log, a.prevLogIndex + 1, a.entries);
             && m[s.snapshotLastIndex] == u.log[s.snapshotLastIndex] && m[0] == u.log[0]
             && Merge(s.log, a.prevLogIndex + 1 - s.snapshotLastIndex, a.entries) == Trim(m, s.snapshotLastIndex)
    ensures Compacts(Replicate(s, a, term).0, Replicate(u, a, term).0)
    ensures Replicate(s, a, term).1 == Replicate(u, a, term).1 == AppendReply(term, true, 0, 0)
  {
  }

  // ----- a leader with a trimmed log -----

  function Led(s: Server, role: Role, votes: seq<bool>, next: seq<nat>, match': seq<nat>, commit: nat): Server {
    s.(role := role, votesReceived := votes, nextIndex := next, matchIndex := match', commitIndex := commit)
  }

  lemma CompactsLed(s: Server, u: Server, role: Role, votes: seq<bool>, next: seq<nat>, match': seq<nat>, commit: nat)
    requires Compacts(s, u) && |votes| in {0, u.n} && |next| == |match'| == u.n
    ensures Compacts(Led(s, role, votes, next, match', commit), Led(u, role, votes, next, match', commit))
  {
  }

  /** Counting a vote, and taking over when it decides the election: the trimmed winner sets the same indices. */
  lemma ReceiveVoteInvisible(s: Server, u: Server, peer: nat, term: nat, r: VoteReply)
    requires Compacts(s, u) && (CountsVote(s, term, r) ==> peer < |s.votesReceived|)
    ensures WellFormed(s) && CountsVote(u, term, r) == CountsVote(s, term, r)
    ensures Compacts(ReceiveVote(s, peer, term, r), ReceiveVote(u, peer, term, r))
  {
    SameIndices(s, u);
    if r.term > s.currentTerm {
      CompactsSame(s, u, r.term, -1, Follower);
    } else if CountsVote(s, term, r) {
      VoteCounted(s, peer, term, r);
      VoteCounted(u, peer, term, r);
      var votes := s.votesReceived[peer := true];
      var next := seq(s.n, _ => LogLength(s));
      var match' := seq(s.n, p => if p == s.me then LogLength(s) - 1 else s.commitIndex);
      CompactsLed(s, u, s.role, votes, s.nextIndex, s.matchIndex, s.commitIndex);
      CompactsLed(s, u, Leader, votes, next, match', s.commitIndex);
    }
  }

  lemma VoteCounted(s: Server, peer: nat, term: nat, r: VoteReply)
    requires WellFormed(s) && CountsVote(s, term, r) && peer < |s.votesReceived|
    ensures var votes := s.votesReceived[peer := true];
            ReceiveVote(s, peer, term, r) ==
            if CountTrue(votes) >= VoteThreshold(s.n) then
              Led(s, Leader, votes, seq(s.n, _ => LogLength(s)),
                  seq(s.n, p => if p == s.me then LogLength(s) - 1 else s.commitIndex), s.commitIndex)
            else Led(s, s.role, votes, s.nextIndex, s.matchIndex, s.commitIndex)
  {
  }

  /** A leader's use of a reply: the same indices, and the same commit index by the same median. */
  lemma ReceiveAppendInvisible(s: Server, u: Server, peer: nat, a: AppendArgs, r: AppendReply)
    requires Compacts(s, u) && WellFormed(s)
    requires TakesAppendReply(s, peer, a, r) && r.success ==> MedianInLog(Matched(s, peer, a))
    ensures TakesAppendReply(u, peer, a, r) && r.success ==> MedianInLog(Matched(u, peer, a))
    ensures Compacts(ReceiveAppend(s, peer, a, r), ReceiveAppend(u, peer, a, r))
  {
    SameIndices(s, u);
    assert TakesAppendReply(s, peer, a, r) == TakesAppendReply(u, peer, a, r);
    if r.term > s.currentTerm {
      CompactsSame(s, u, r.term, -1, Follower);
    } else if TakesAppendReply(s, peer, a, r) {
      if r.success {
        var last := a.prevLogIndex + |a.entries|;
        CompactsLed(s, u, s.role, s.votesReceived, s.nextIndex[peer := last + 1], s.matchIndex[peer := last], s.commitIndex);
        UpdateInvisible(Matched(s, peer, a), Matched(u, peer, a));
      } else {
        CompactsLed(s, u, s.role, s.votesReceived, s.nextIndex[peer := r.failedFirstIndex], s.matchIndex, s.commitIndex);
      }
    }
  }

  lemma UpdateInvisible(s: Server, u: Server)
    requires Compacts(s, u) && WellFormed(s) && MedianInLog(s)
    ensures MedianInLog(u) && Compacts(UpdateCommitIndex(s), UpdateCommitIndex(u))
  {
    SameAt(s, u, Median(s.matchIndex));
    CompactsLed(s, u, s.role, s.votesReceived, s.nextIndex, s.matchIndex, Median(s.matchIndex));
  }

  // ----- snapshots from a leader -----

  /** Equal terms at an index mean equal logs up to it. */
  predicate LogsMatch(x: seq<Entry>, y: seq<Entry>) {
    forall k {:trigger x[..k + 1]} :: 0 <= k < |x| && k < |y| && x[k].term == y[k].term ==> x[..k + 1] == y[..k + 1]
  }

  /** The snapshot covers exactly the full log `covered`. */
  predicate Covers(a: InstallArgs, covered: seq<Entry>) {
    && |covered| == a.lastIncludedIndex + 1 && covered[0] == Sentinel(0)
    && covered[a.lastIncludedIndex].term == a.lastIncludedTerm
  }

  /** A server that never trims is sent the entries instead of the snapshot that covers them, from the first on;
      they are committed. As with the snapshot, it does not look at a stale term, nor move to a later one. */
  function Receives(u: Server, a: InstallArgs, covered: seq<Entry>): Server
    requires u.log != [] && Covers(a, covered)
  {
    if a.term < u.currentTerm then u
    else u.(log := Merge(u.log, 1, covered[1..]), commitIndex := Max(u.commitIndex, a.lastIncludedIndex))
  }

  lemma MatchBelow(x: seq<Entry>, y: seq<Entry>, last: nat, at: nat)
    requires LogsMatch(x, y)
    ensures at <= last < |x| && last < |y| && x[last].term == y[last].term ==> x[at] == y[at]
  {
    if at <= last < |x| && last < |y| && x[last].term == y[last].term {
      assert x[at] == x[..last + 1][at] && y[at] == y[..last + 1][at];
    }
  }

  /** Merging a whole log that matches: nothing is lost if it is there, and it is taken if not. */
  lemma {:induction false} MergeWhole(log: seq<Entry>, covered: seq<Entry>, at: nat)
    requires LogsMatch(log, covered) && 1 <= at <= |log| && at <= |covered| && log[..at] == covered[..at]
    ensures Merge(log, at, covered[at..]) ==
            if |covered| <= |log| && log[|covered| - 1].term == covered[|covered| - 1].term then log else covered
    decreases |covered| - at
  {
    var last := |covered| - 1;
    MatchBelow(log, covered, last, at);
    if at == |covered| {
      assert log[last] == log[..at][last] == covered[..at][last] == covered[last];
    } else if at == |log| {
      assert log == log[..at];
    } else if log[at].term == covered[at].term {
      assert log[..at + 1] == covered[..at + 1];
      assert covered[at..][1..] == covered[at + 1..];
      MergeWhole(log, covered, at + 1);
    } else {
      assert log[..at] + covered[at..] == covered;
    }
  }

  /** A snapshot from a leader is the entries it covers: the trimmed server that takes it is the trimming of the
      full server that is sent them, so everything acknowledged after it stays. */
  lemma InstallInvisible(s: Server, u: Server, a: InstallArgs, covered: seq<Entry>)
    requires Compacts(s, u) && Covers(a, covered) && LogsMatch(u.log, covered)
    requires a.lastIncludedIndex <= s.snapshotLastIndex ==>
               s.snapshotLastIndex <= s.commitIndex && u.log[a.lastIncludedIndex].term == a.lastIncludedTerm
    ensures Compacts(InstallSnapshot(s, a), Receives(u, a, covered))
  {
    var last := a.lastIncludedIndex;
    SameIndices(s, u);
    assert u.log[..1] == covered[..1];
    MergeWhole(u.log, covered, 1);
    if a.term >= s.currentTerm && last > s.snapshotLastIndex {
      InstallTaken(s, u, a, Merge(u.log, 1, covered[1..]));
    }
  }

  lemma InstallTaken(s: Server, u: Server, a: InstallArgs, full: seq<Entry>)
    requires Compacts(s, u) && a.term >= s.currentTerm && a.lastIncludedIndex > s.snapshotLastIndex
    requires a.lastIncludedIndex < |full| && full[0] == Sentinel(0) && full[a.lastIncludedIndex].term == a.lastIncludedTerm
    requires if a.lastIncludedIndex < |u.log| && u.log[a.lastIncludedIndex].term == a.lastIncludedTerm
             then full == u.log else |full| == a.lastIncludedIndex + 1
    ensures Compacts(InstallSnapshot(s, a), u.(log := full, commitIndex := Max(u.commitIndex, a.lastIncludedIndex)))
  {
    var last := a.lastIncludedIndex;
    SameIndices(s, u);
    if last < |u.log| {
      SameAt(s, u, last);
      assert s.log[last - s.snapshotLastIndex + 1..] == u.log[last + 1..];
    }
  }

  // ----- whole lives -----

  /** What happens to a server: a region of the protocol, a snapshot by its service, or one from a leader. */
  datatype Move = Event(event: A.Event) | Cut(index: nat, data: Snapshot) | Install(args: InstallArgs, covered: seq<Entry>)

  /** The trimmed server can take the move; messages from leaders do not reach below its snapshot, and what their
      snapshots cover matches its log, as the protocol guarantees. */
  predicate CanTake(s: Server, u: Server, m: Move) {
    match m
    case Cut(index, _) => index < LogLength(s)
    case Install(a, covered) =>
      && Covers(a, covered) && LogsMatch(u.log, covered)
      && (a.lastIncludedIndex <= s.snapshotLastIndex ==>
            s.snapshotLastIndex <= s.commitIndex && a.lastIncludedIndex < |u.log|
            && u.log[a.lastIncludedIndex].term == a.lastIncludedTerm)
    case Event(e) =>
      && A.CanReact(s, e)
      && match e
         case Vote(a) => a.candidateId < s.n
         case Append(a) => a.prevLogIndex >= s.snapshotLastIndex
         case _ => true
  }

  function Take(s: Server, u: Server, m: Move): Server
    requires CanTake(s, u, m)
  {
    match m
    case Cut(index, data) => TakeSnapshot(s, index, data)
    case Install(a, _) => InstallSnapshot(s, a)
    case Event(e) => A.React(s, e)
  }

  predicate FullCanTake(u: Server, m: Move) {
    match m
    case Cut(_, _) => true
    case Install(a, covered) => u.log != [] && Covers(a, covered)
    case Event(e) => A.CanReact(u, e)
  }

  /** The server that never trims ignores its service's snapshots, and is sent entries instead of a leader's. */
  function TakeFull(u: Server, m: Move): Server
    requires FullCanTake(u, m)
  {
    match m
    case Cut(_, _) => u
    case Install(a, covered) => Receives(u, a, covered)
    case Event(e) => A.React(u, e)
  }

  /** What the server says in return. */
  datatype Said = Silence | Asked(vote: VoteArgs) | Voted(voted: VoteReply) | Began(started: Started) | Answered(reply: AppendReply)

  function Says(s: Server, m: Move): Said
    requires m.Event? ==> A.CanReact(s, m.event)
  {
    match m
    case Event(Election) => Asked(VoteRequest(StartElection(s)))
    case Event(Vote(a)) => Voted(RequestVote(s, a).1)
    case Event(Submit(command)) => Began(Start(s, command).1)
    case Event(Append(a)) => Answered(AppendEntries(s, a).1)
    case _ => Silence
  }

  /** The same answer; a refusal of an ordered log points to the full one's index, raised to the snapshot and to 1. */
  predicate SameSaid(s: Server, u: Server, m: Move, x: Said, y: Said) {
    if x.Answered? && y.Answered? && !x.reply.success && m.Event? && m.event.Append? && m.event.append.term >= s.currentTerm then
      && x.reply.term == y.reply.term && !y.reply.success && x.reply.failedTerm == y.reply.failedTerm
      && (Ordered(u.log) ==> x.reply.failedFirstIndex == Max(Max(y.reply.failedFirstIndex, s.snapshotLastIndex), 1))
    else x == y
  }

  lemma MoveInvisible(s: Server, u: Server, m: Move)
    requires Compacts(s, u) && CanTake(s, u, m)
    ensures FullCanTake(u, m)
    ensures Compacts(Take(s, u, m), TakeFull(u, m)) && SameSaid(s, u, m, Says(s, m), Says(u, m))
  {
    match m
    case Cut(index, data) => SnapshotInvisible(s, u, index, data);
    case Install(a, covered) => InstallInvisible(s, u, a, covered);
    case Event(e) =>
      match e
      case Election => StartElectionInvisible(s, u);
      case Vote(a) => RequestVoteInvisible(s, u, a);
      case VoteReturn(peer, term, r) => ReceiveVoteInvisible(s, u, peer, term, r);
      case Submit(command) => StartInvisible(s, u, command);
      case Append(a) => AppendEntriesInvisible(s, u, a);
      case AppendReturn(peer, a, r) => ReceiveAppendInvisible(s, u, peer, a, r);
  }

  /** The trimmed server can take all the moves, one after the other. */
  predicate CanTakeAll(s: Server, u: Server, moves: seq<Move>)
    decreases |moves|
  {
    moves == []
    || (CanTake(s, u, moves[0])
        && (FullCanTake(u, moves[0]) ==> CanTakeAll(Take(s, u, moves[0]), TakeFull(u, moves[0]), moves[1..])))
  }

  /** Two servers through the same moves: the one that never trims can take them too, and every answer is the same. */
  predicate SameLife(s: Server, u: Server, moves: seq<Move>)
    requires CanTakeAll(s, u, moves)
    decreases |moves|
  {
    moves == [] ||
    (var m := moves[0];
     && FullCanTake(u, m)
     && SameSaid(s, u, m, Says(s, m), Says(u, m))
     && SameLife(Take(s, u, m), TakeFull(u, m), moves[1..]))
  }

  /** Compaction is invisible: through any number of elections, votes, submissions, appends, replies and
      snapshots, its own and leaders', in any order, a server that trims its log answers as one that never
      does and is sent the entries themselves. */
  lemma {:induction false} CompactionInvisible(s: Server, u: Server, moves: seq<Move>)
    requires Compacts(s, u) && CanTakeAll(s, u, moves)
    ensures SameLife(s, u, moves)
    decreases |moves|
  {
    if moves != [] {
      MoveInvisible(s, u, moves[0]);
      CompactionInvisible(Take(s, u, moves[0]), TakeFull(u, moves[0]), moves[1..]);
    }
  }
}
