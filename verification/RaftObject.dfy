/** The `Raft` object of `src/raft1/raft.go`: its fields, updated in place, and its methods, each
    proved to do what the function of the same name in `RaftServer` says and to leave on disk
    exactly what a restart needs. The lock is held for the whole of every method. */
module RaftObject {
  import opened Quorum
  import S = RaftServer
  import A = RaftApply
  import O = RaftOutcomes

  type Entry = S.Entry

  /** What `StartSendEntries` sends to one peer. */
  datatype Outgoing = Entries(args: S.AppendArgs) | Snapshot(args': S.InstallArgs)

  class Raft {
    const me: nat
    const n: nat
    var role: S.Role
    var currentTerm: nat
    var votedFor: int
    var votesReceived: seq<bool>
    var log: seq<Entry>
    var commitIndex: nat
    var lastApplied: nat
    var nextIndex: seq<nat>
    var matchIndex: seq<nat>
    var isSnapshotApplied: bool
    var snapshotLastIndex: nat
    var snapshotLastTerm: nat
    var snapshot: S.Snapshot
    var disk: S.Disk

    /** The fields as one value. */
    ghost function View(): S.Server
      reads this
    {
      S.Server(me, n, role, currentTerm, votedFor, votesReceived, log, commitIndex, lastApplied,
               nextIndex, matchIndex, isSnapshotApplied, snapshotLastIndex, snapshotLastTerm, snapshot)
    }

    ghost predicate Persisted()
      reads this
    {
      disk == S.DiskOf(View())
    }

    constructor Make(me: nat, n: nat, d: S.Disk)
      ensures View() == S.Boot(me, n, d) && Persisted()
    {
      this.me, this.n := me, n;
      role := S.Follower;
      isSnapshotApplied := true;
      votesReceived, nextIndex, matchIndex := [], seq(n, _ => 0), seq(n, _ => 0);
      currentTerm, votedFor, log := d.currentTerm, d.votedFor, d.log;
      snapshotLastIndex, snapshotLastTerm, snapshot := d.snapshotLastIndex, d.snapshotLastTerm, d.snapshot;
      lastApplied, commitIndex := d.snapshotLastIndex, d.snapshotLastIndex;
      disk := d;
    }

    method Persist()
      modifies this`disk
      ensures Persisted()
    {
      disk := S.Disk(currentTerm, votedFor, log, snapshotLastIndex, snapshotLastTerm, snapshot);
    }

    method BecomeFollower(term: nat)
      modifies this`currentTerm, this`votedFor, this`role
      ensures View() == S.BecomeFollower(old(View()), term)
    {
      currentTerm, votedFor, role := term, -1, S.Follower;
    }

    method CountVotes() returns (count: nat)
      ensures count == CountTrue(votesReceived)
    {
      count := 0;
      for i := 0 to |votesReceived|
        invariant count == CountTrue(votesReceived[..i])
      {
        assert votesReceived[..i + 1][..i] == votesReceived[..i];
        if votesReceived[i] { count := count + 1; }
      }
      assert votesReceived[..|votesReceived|] == votesReceived;
    }

    method BecomeCandidate()
      requires me < n
      modifies this`currentTerm, this`role, this`votedFor, this`votesReceived
      ensures currentTerm == old(currentTerm) + 1 && role == S.Candidate && votedFor == me
      ensures votesReceived == seq(n, i => i == me)
    {
      currentTerm := currentTerm + 1;
      role := S.Candidate;
      votedFor := me;
      votesReceived := seq(n, _ => false);
      votesReceived := votesReceived[me := true];
    }

    method StartElection() returns (request: S.VoteArgs)
      requires S.WellFormed(View())
      modifies this
      ensures View() == S.StartElection(old(View())) && Persisted()
      ensures request == S.VoteRequest(View())
    {
      BecomeCandidate();
      request := S.VoteArgs(currentTerm, me, |log| + snapshotLastIndex - 1, log[|log| - 1].term);
      Persist();
    }

    method RequestVote(a: S.VoteArgs) returns (reply: S.VoteReply)
      requires S.WellFormed(View())
      modifies this
      ensures (View(), reply) == S.RequestVote(old(View()), a) && Persisted()
      ensures reply.granted <==>
                && a.term >= old(currentTerm)
                && (a.term == old(currentTerm) ==> old(votedFor) == -1 || old(votedFor) == a.candidateId)
                && O.AtLeastAsLate(a.lastLogTerm, a.lastLogIndex, old(View()))
    {
      O.VoteGrantedIff(View(), a);
      reply := S.VoteReply(currentTerm, false);
      if a.term >= currentTerm {
        if a.term > currentTerm { BecomeFollower(a.term); }
        var lastIndex, lastTerm := |log| + snapshotLastIndex - 1, log[|log| - 1].term;
        var older := false;
        if lastTerm > a.lastLogTerm {
          older := true;
        } else if lastTerm == a.lastLogTerm {
          older := lastIndex > a.lastLogIndex;
        }
        if (votedFor == -1 || votedFor == a.candidateId) && !older {
          votedFor := a.candidateId;
          reply := reply.(granted := true);
        }
      }
      Persist();
    }

    /** Taking over after winning. */
    method BecomeLeader()
      requires S.WellFormed(View())
      modifies this`role, this`nextIndex, this`matchIndex
      ensures View() == S.BecomeLeader(old(View()))
    {
      role := S.Leader;
      for i := 0 to n
        modifies this`nextIndex
        invariant |nextIndex| == n && forall p :: 0 <= p < i ==> nextIndex[p] == |log| + snapshotLastIndex
      {
        nextIndex := nextIndex[i := |log| + snapshotLastIndex];
      }
      for i := 0 to n
        modifies this`matchIndex
        invariant |matchIndex| == n && forall p :: 0 <= p < i ==> matchIndex[p] == commitIndex
      {
        matchIndex := matchIndex[i := commitIndex];
      }
      matchIndex := matchIndex[me := |log| + snapshotLastIndex - 1];
      assert nextIndex == S.BecomeLeader(old(View())).nextIndex;
      assert matchIndex == S.BecomeLeader(old(View())).matchIndex;
    }

    method ReceiveVote(peer: nat, term: nat, r: S.VoteReply)
      requires S.WellFormed(View()) && (S.CountsVote(View(), term, r) ==> peer < |votesReceived|)
      modifies this
      ensures View() == S.ReceiveVote(old(View()), peer, term, r) && Persisted()
    {
      if r.term > currentTerm {
        BecomeFollower(r.term);
      } else if role == S.Leader || term != currentTerm {
      } else if r.granted {
        votesReceived := votesReceived[peer := true];
        var count := CountVotes();
        if count >= (n + 1) / 2 { BecomeLeader(); }
      }
      Persist();
    }

    /** `sent` holds for every other peer what the leader owes it. */
    ghost predicate Broadcast(sent: map<nat, Outgoing>)
      requires S.WellFormed(View())
      reads this
    {
      && (forall p :: 0 <= p < n && p != me ==> p in sent)
      && forall p :: p in sent ==>
           && p < n && p != me && nextIndex[p] <= S.LogLength(View())
           && sent[p] == if S.SendsEntries(View(), p) then Entries(S.EntriesFor(View(), p))
                         else Snapshot(S.SnapshotFor(View()))
    }

    method StartSendEntries() returns (sent: map<nat, Outgoing>)
      requires S.WellFormed(View())
      requires forall p :: 0 <= p < n && p != me ==> nextIndex[p] <= S.LogLength(View())
      ensures Broadcast(sent)
    {
      sent := map[];
      for p := 0 to n
        invariant forall q :: 0 <= q < p && q != me ==> q in sent
        invariant forall q :: q in sent ==>
          && q < n && q != me
          && sent[q] == if S.SendsEntries(View(), q) then Entries(S.EntriesFor(View(), q))
                        else Snapshot(S.SnapshotFor(View()))
      {
        if p != me {
          var next := nextIndex[p];
          if next > snapshotLastIndex {
            var at := next - snapshotLastIndex;
            sent := sent[p := Entries(S.AppendArgs(currentTerm, me, commitIndex, next - 1, log[at - 1].term, log[at..]))];
          } else {
            sent := sent[p := Snapshot(S.InstallArgs(currentTerm, me, snapshotLastIndex, snapshotLastTerm, snapshot))];
          }
        }
      }
    }

    method Start(command: S.Command) returns (result: S.Started, sent: map<nat, Outgoing>)
      requires S.WellFormed(View())
      requires role == S.Leader ==> forall p :: 0 <= p < n && p != me ==> nextIndex[p] <= S.LogLength(View())
      modifies this
      ensures (View(), result) == S.Start(old(View()), command) && Persisted()
      ensures S.WellFormed(View()) && if role == S.Leader then Broadcast(sent) else sent == map[]
      ensures result.isLeader == (role == S.Leader) && result.term == currentTerm
      ensures result.isLeader ==>
                && result.index == S.LogLength(old(View())) && S.LogLength(View()) == result.index + 1
                && S.At(View(), result.index) == S.Entry(currentTerm, command)
    {
      O.StartOutcome(View(), command);
      sent := map[];
      if role != S.Leader {
        result := S.Started(commitIndex, currentTerm, false);
      } else {
        log := log + [S.Entry(currentTerm, command)];
        matchIndex := matchIndex[me := |log| + snapshotLastIndex - 1];
        sent := StartSendEntries();
        result := S.Started(|log| + snapshotLastIndex - 1, currentTerm, true);
      }
      Persist();
    }

    method BuildFailedReply(start: nat, term: nat) returns (reply: S.AppendReply)
      requires start < |log|
      ensures reply == S.FailedReply(View(), term, start)
    {
      var failed := log[start].term;
      var first: nat;
      if failed == snapshotLastTerm {
        first := snapshotLastIndex;
      } else {
        first := start;
        var i := start + 1;
        while i > 0
          invariant 0 <= i <= start + 1
          invariant S.Lowest(log, i, failed, first) == S.Lowest(log, start + 1, failed, start)
        {
          i := i - 1;
          if failed == log[i].term { first := i; }
        }
        first := first + snapshotLastIndex;
      }
      reply := S.AppendReply(term, false, failed, if first < 1 then 1 else first);
    }

    /** The replication loop of `AppendEntries`. */
    method MergeEntries(prev: nat, entries: seq<Entry>)
      requires snapshotLastIndex <= prev < |log| + snapshotLastIndex
      modifies this`log
      ensures log == S.Merge(old(log), prev - snapshotLastIndex + 1, entries)
    {
      var entriesPointer, logPointer := 0, prev + 1;
      ghost var merged := S.Merge(log, prev - snapshotLastIndex + 1, entries);
      while logPointer < |log| + snapshotLastIndex && entriesPointer < |entries|
        invariant 0 <= entriesPointer <= |entries| && logPointer == prev + 1 + entriesPointer
        invariant logPointer <= |log| + snapshotLastIndex
        invariant merged == S.Merge(log, logPointer - snapshotLastIndex, entries[entriesPointer..])
        invariant log == old(log)
      {
        if log[logPointer - snapshotLastIndex].term != entries[entriesPointer].term {
          log := log[..logPointer - snapshotLastIndex];
          break;
        }
        assert entries[entriesPointer..][1..] == entries[entriesPointer + 1..];
        entriesPointer := entriesPointer + 1;
        logPointer := logPointer + 1;
      }
      log := log + entries[entriesPointer..];
    }

    /** `AppendEntries` once the term is settled. */
    method Replicate(a: S.AppendArgs, term: nat) returns (reply: S.AppendReply)
      requires log != []
      modifies this`log, this`commitIndex
      ensures (View(), reply) == S.Replicate(old(View()), a, term)
    {
      if |log| + snapshotLastIndex <= a.prevLogIndex {
        reply := BuildFailedReply(|log| - 1, term);
      } else if snapshotLastIndex > a.prevLogIndex {
        reply := S.AppendReply(term, false, snapshotLastTerm, snapshotLastIndex);
      } else if log[a.prevLogIndex - snapshotLastIndex].term != a.prevLogTerm {
        reply := BuildFailedReply(a.prevLogIndex - snapshotLastIndex, term);
      } else {
        reply := S.AppendReply(term, true, 0, 0);
        MergeEntries(a.prevLogIndex, a.entries);
        if a.leaderCommit > commitIndex {
          commitIndex := S.Min(a.leaderCommit, |log| + snapshotLastIndex - 1);
        }
      }
    }

    method AppendEntries(a: S.AppendArgs) returns (reply: S.AppendReply)
      requires S.WellFormed(View())
      modifies this
      ensures (View(), reply) == S.AppendEntries(old(View()), a) && Persisted()
    {
      if a.term < currentTerm {
        reply := S.AppendReply(currentTerm, false, 0, 0);
      } else {
        var mine := currentTerm;
        role := S.Follower;
        if a.term > currentTerm { BecomeFollower(a.term); }
        reply := Replicate(a, mine);
      }
      Persist();
    }

    method UpdateCommitIndex()
      requires S.WellFormed(View()) && S.MedianInLog(View())
      modifies this`commitIndex
      ensures View() == S.UpdateCommitIndex(old(View()))
      ensures commitIndex != old(commitIndex) ==> O.Committable(old(View()), commitIndex)
      ensures O.InOrder(old(View())) ==> forall i: nat :: O.Committable(old(View()), i) ==> i <= commitIndex
    {
      O.CommitOutcome(View());
      var tmp := Sort(matchIndex);
      SortAscending(matchIndex);
      var median := tmp[(|tmp| - 1) / 2];
      if log[median - snapshotLastIndex].term == currentTerm { commitIndex := median; }
    }

    method ReceiveAppend(peer: nat, a: S.AppendArgs, r: S.AppendReply)
      requires S.WellFormed(View()) && peer < n
      requires S.TakesAppendReply(View(), peer, a, r) && r.success ==> S.MedianInLog(S.Matched(View(), peer, a))
      modifies this
      ensures View() == S.ReceiveAppend(old(View()), peer, a, r) && Persisted()
    {
      if r.term > currentTerm {
        BecomeFollower(r.term);
      } else if role != S.Leader || currentTerm != a.term || nextIndex[peer] != a.prevLogIndex + 1 {
      } else if !r.success {
        nextIndex := nextIndex[peer := r.failedFirstIndex];
      } else {
        nextIndex := nextIndex[peer := a.prevLogIndex + |a.entries| + 1];
        matchIndex := matchIndex[peer := a.prevLogIndex + |a.entries|];
        UpdateCommitIndex();
      }
      Persist();
    }

    method TrimLogFrom(index: nat, term: nat)
      requires snapshotLastIndex <= index < |log| + snapshotLastIndex
      modifies this`log
      ensures View() == S.TrimLogFrom(old(View()), index, term)
    {
      log := [S.Sentinel(term)] + log[index - snapshotLastIndex + 1..];
    }

    method TakeSnapshot(index: nat, data: S.Snapshot)
      requires index < |log| + snapshotLastIndex
      modifies this
      ensures View() == S.TakeSnapshot(old(View()), index, data) && Persisted()
    {
      if snapshotLastIndex < index {
        snapshotLastTerm := log[index - snapshotLastIndex].term;
        snapshot := data;
        TrimLogFrom(index, snapshotLastTerm);
        snapshotLastIndex := index;
      }
      Persist();
    }

    /** Taking a newer snapshot: the log keeps its tail if they agree at its index, else it is empty. */
    method Adopt(a: S.InstallArgs)
      requires a.term >= currentTerm && snapshotLastIndex < a.lastIncludedIndex
      modifies this`log, this`commitIndex, this`snapshotLastIndex, this`snapshotLastTerm, this`snapshot,
               this`isSnapshotApplied
      ensures View() == S.InstallSnapshot(old(View()), a)
    {
      var at := a.lastIncludedIndex - snapshotLastIndex;
      if at < |log| && log[at].term == a.lastIncludedTerm {
        TrimLogFrom(a.lastIncludedIndex, a.lastIncludedTerm);
      } else {
        log := [S.Sentinel(a.lastIncludedTerm)];
      }
      commitIndex := S.Max(commitIndex, a.lastIncludedIndex);
      snapshotLastIndex, snapshotLastTerm, snapshot := a.lastIncludedIndex, a.lastIncludedTerm, a.data;
      isSnapshotApplied := false;
    }

    method InstallSnapshot(a: S.InstallArgs) returns (term: nat)
      modifies this
      ensures View() == S.InstallSnapshot(old(View()), a) && Persisted()
      ensures term == old(currentTerm)
      ensures a.term >= currentTerm && a.lastIncludedIndex > old(snapshotLastIndex) ==>
                if O.Has(old(View()), a.lastIncludedIndex) && S.At(old(View()), a.lastIncludedIndex).term == a.lastIncludedTerm
                then S.LogLength(View()) == S.LogLength(old(View()))
                     && O.SameBetween(old(View()), View(), a.lastIncludedIndex + 1, S.LogLength(View()))
                else S.LogLength(View()) == a.lastIncludedIndex + 1
    {
      O.InstallOutcome(View(), a);
      term := currentTerm;
      if a.term >= currentTerm && snapshotLastIndex < a.lastIncludedIndex { Adopt(a); }
      Persist();
    }

    /** `sendInstallSnapshot` from where it takes the lock after its call. */
    method ReceiveInstall(peer: nat, a: S.InstallArgs, term: nat)
      requires S.WellFormed(View()) && peer < n
      requires S.TakesInstallReply(View(), a, term) ==> S.MedianInLog(S.Supplied(View(), peer, a))
      modifies this
      ensures View() == S.ReceiveInstall(old(View()), peer, a, term) && Persisted()
    {
      if term > currentTerm {
        BecomeFollower(term);
      } else if role == S.Leader && currentTerm == a.term && a.lastIncludedIndex == snapshotLastIndex {
        nextIndex := nextIndex[peer := S.Max(a.lastIncludedIndex + 1, nextIndex[peer])];
        matchIndex := matchIndex[peer := S.Max(a.lastIncludedIndex, matchIndex[peer])];
        UpdateCommitIndex();
      }
      Persist();
    }

    /** `applyTicker` from the top of its loop, with the lock held, to where it gives the lock up. */
    method Proceed() returns (pc: A.Pc)
      requires A.LookupOk(View())
      modifies this`lastApplied
      ensures (View(), pc) == A.Proceed(old(View())) && (old(Persisted()) ==> Persisted())
    {
      if !isSnapshotApplied {
        lastApplied := snapshotLastIndex;
        return A.Sending(A.Restore(snapshotLastIndex, snapshotLastTerm, snapshot));
      }
      if commitIndex > lastApplied {
        lastApplied := lastApplied + 1;
        var entry := log[lastApplied - snapshotLastIndex];
        return A.Sending(A.Command(lastApplied, entry.command));
      }
      return A.Asleep;
    }

    /** `applyTicker` from where it takes the lock back after sending `msg`. */
    method AfterSend(msg: A.Msg) returns (pc: A.Pc)
      requires A.LookupOk(A.Noted(View(), msg))
      modifies this`lastApplied, this`isSnapshotApplied
      ensures (View(), pc) == A.AfterSend(old(View()), msg) && (old(Persisted()) ==> Persisted())
    {
      if msg.Restore? {
        if msg.index == snapshotLastIndex { isSnapshotApplied := true; }
      } else if !isSnapshotApplied {
        return A.Asleep;
      }
      pc := Proceed();
    }
  }
}
