/** One Raft server: the fields of `Raft` in `src/raft1/raft.go` and, for every region of code
    run under `rf.mu`, the function from the fields before the region to the fields after it. */
module RaftServer {
  import opened Quorum

  type Command = string
  type Snapshot = string

  datatype Entry = Entry(term: nat, command: Command)

  /** The first physical entry of every log; it carries a term and no command. */
  function Sentinel(term: nat): Entry {
    Entry(term, "")
  }

  /** The empty initial state of the source behaves as `Follower`: only `Leader` is ever tested. */
  datatype Role = Follower | Candidate | Leader

  datatype Server = Server(
    me: nat,
    n: nat,                    // len(peers)
    role: Role,
    currentTerm: nat,
    votedFor: int,             // -1: nobody
    votesReceived: seq<bool>,  // empty until the first election of this incarnation
    log: seq<Entry>,
    commitIndex: nat,
    lastApplied: nat,
    nextIndex: seq<nat>,
    matchIndex: seq<nat>,
    isSnapshotApplied: bool,
    snapshotLastIndex: nat,
    snapshotLastTerm: nat,
    snapshot: Snapshot)

  /** What `persist` saves and `readPersist` reads back. */
  datatype Disk = Disk(
    currentTerm: nat, votedFor: int, log: seq<Entry>,
    snapshotLastIndex: nat, snapshotLastTerm: nat, snapshot: Snapshot)

  datatype VoteArgs = VoteArgs(term: nat, candidateId: nat, lastLogIndex: nat, lastLogTerm: nat)
  datatype VoteReply = VoteReply(term: nat, granted: bool)
  datatype AppendArgs = AppendArgs(
    term: nat, leaderId: nat, leaderCommit: nat,
    prevLogIndex: nat, prevLogTerm: nat, entries: seq<Entry>)
  datatype AppendReply = AppendReply(term: nat, success: bool, failedTerm: nat, failedFirstIndex: nat)
  datatype InstallArgs = InstallArgs(
    term: nat, leaderId: nat, lastIncludedIndex: nat, lastIncludedTerm: nat, data: Snapshot)

  function Min(a: int, b: int): int { if a < b then a else b }
  function Max(a: int, b: int): int { if a < b then b else a }

  /** The shape every region relies on and leaves behind. */
  predicate WellFormed(s: Server) {
    && s.me < s.n
    && -1 <= s.votedFor < s.n
    && |s.votesReceived| in {0, s.n}
    && s.log != []
    && |s.nextIndex| == |s.matchIndex| == s.n
  }

  // ----- persistence -----

  function DiskOf(s: Server): Disk {
    Disk(s.currentTerm, s.votedFor, s.log, s.snapshotLastIndex, s.snapshotLastTerm, s.snapshot)
  }

  function BlankDisk(): Disk {
    Disk(0, -1, [Sentinel(0)], 0, 0, "")
  }

  /** `Make` on the given disk: everything not persisted starts afresh. */
  function Boot(me: nat, n: nat, d: Disk): Server {
    Server(me, n, Follower, d.currentTerm, d.votedFor, [], d.log,
           d.snapshotLastIndex, d.snapshotLastIndex,
           seq(n, _ => 0), seq(n, _ => 0),
           true, d.snapshotLastIndex, d.snapshotLastTerm, d.snapshot)
  }

  // ----- helpers -----

  function LogLength(s: Server): nat {
    |s.log| + s.snapshotLastIndex
  }

  /** The entry at an absolute index. */
  function At(s: Server, index: nat): Entry
    requires s.snapshotLastIndex <= index < LogLength(s)
  {
    s.log[index - s.snapshotLastIndex]
  }

  function LastTerm(s: Server): nat
    requires s.log != []
  {
    s.log[|s.log| - 1].term
  }

  function BecomeFollower(s: Server, term: nat): Server {
    s.(currentTerm := term, votedFor := -1, role := Follower)
  }

  function VoteThreshold(n: nat): nat {
    (n + 1) / 2
  }

  // ----- elections -----

  function StartElection(s: Server): Server
    requires WellFormed(s)
  {
    s.(currentTerm := s.currentTerm + 1, role := Candidate, votedFor := s.me,
       votesReceived := seq(s.n, i => i == s.me))
  }

  /** The arguments a candidate sends to every peer. */
  function VoteRequest(s: Server): VoteArgs
    requires s.log != []
  {
    VoteArgs(s.currentTerm, s.me, LogLength(s) - 1, LastTerm(s))
  }

  /** The voter's log is ahead of the candidate's. */
  predicate LogOlder(s: Server, a: VoteArgs)
    requires s.log != []
  {
    LastTerm(s) > a.lastLogTerm || (LastTerm(s) == a.lastLogTerm && LogLength(s) - 1 > a.lastLogIndex)
  }

  function RequestVote(s: Server, a: VoteArgs): (Server, VoteReply)
    requires WellFormed(s)
  {
    if a.term < s.currentTerm then (s, VoteReply(s.currentTerm, false))
    else
      var s1 := if a.term > s.currentTerm then BecomeFollower(s, a.term) else s;
      if (s1.votedFor == -1 || s1.votedFor == a.candidateId) && !LogOlder(s1, a)
      then (s1.(votedFor := a.candidateId), VoteReply(s.currentTerm, true))
      else (s1, VoteReply(s.currentTerm, false))
  }

  function BecomeLeader(s: Server): Server
    requires WellFormed(s)
  {
    s.(role := Leader,
       nextIndex := seq(s.n, _ => LogLength(s)),
       matchIndex := seq(s.n, p => if p == s.me then LogLength(s) - 1 else s.commitIndex))
  }

  /** The reply is looked at past the term checks of `sendRequestVote`. */
  predicate CountsVote(s: Server, term: nat, r: VoteReply) {
    r.term <= s.currentTerm && s.role != Leader && term == s.currentTerm && r.granted
  }

  /** `sendRequestVote` after the call for `term` to `peer` has returned. */
  function ReceiveVote(s: Server, peer: nat, term: nat, r: VoteReply): Server
    requires WellFormed(s)
    requires CountsVote(s, term, r) ==> peer < |s.votesReceived|
  {
    if r.term > s.currentTerm then BecomeFollower(s, r.term)
    else if !CountsVote(s, term, r) then s
    else
      var s1 := s.(votesReceived := s.votesReceived[peer := true]);
      if CountTrue(s1.votesReceived) >= VoteThreshold(s.n) then BecomeLeader(s1) else s1
  }

  // ----- log replication -----

  /** What `Start` returns besides its effect. */
  datatype Started = Started(index: nat, term: nat, isLeader: bool)

  function Start(s: Server, command: Command): (Server, Started)
    requires WellFormed(s)
  {
    if s.role != Leader then (s, Started(s.commitIndex, s.currentTerm, false))
    else
      var s1 := s.(log := s.log + [Entry(s.currentTerm, command)]);
      var s2 := s1.(matchIndex := s1.matchIndex[s.me := LogLength(s1) - 1]);
      (s2, Started(LogLength(s2) - 1, s2.currentTerm, true))
  }

  /** The leader still has the entries `peer` needs; otherwise it sends its snapshot. */
  predicate SendsEntries(s: Server, peer: nat)
    requires peer < |s.nextIndex|
  {
    s.nextIndex[peer] > s.snapshotLastIndex
  }

  /** The `AppendEntries` arguments `StartSendEntries` builds for `peer`: the leader's whole tail. */
  function EntriesFor(s: Server, peer: nat): AppendArgs
    requires peer < |s.nextIndex| && SendsEntries(s, peer) && s.nextIndex[peer] <= LogLength(s)
  {
    var next := s.nextIndex[peer];
    AppendArgs(s.currentTerm, s.me, s.commitIndex, next - 1, At(s, next - 1).term,
               s.log[next - s.snapshotLastIndex..])
  }

  /** The follower's loop: keep what matches by term, then take the rest from the leader. */
  function Merge(log: seq<Entry>, at: nat, entries: seq<Entry>): (merged: seq<Entry>)
    requires at <= |log|
    ensures |merged| >= at
    decreases |entries|
  {
    if entries == [] then log
    else if at == |log| then log + entries
    else if log[at].term != entries[0].term then log[..at] + entries
    else Merge(log, at + 1, entries[1..])
  }

  /** The lowest index up to `start` holding `term`, or `found` if there is none. */
  function Lowest(log: seq<Entry>, start: nat, term: nat, found: nat): nat
    requires start <= |log|
  {
    if start == 0 then found
    else Lowest(log, start - 1, term, if log[start - 1].term == term then start - 1 else found)
  }

  /** `buildFailedReply` from a physical index. */
  function FailedReply(s: Server, term: nat, start: nat): AppendReply
    requires start < |s.log|
  {
    var failed := s.log[start].term;
    var first :=
      if failed == s.snapshotLastTerm then s.snapshotLastIndex
      else Lowest(s.log, start + 1, failed, start) + s.snapshotLastIndex;
    AppendReply(term, false, failed, Max(first, 1))
  }

  /** `AppendEntries` once the term is settled; the reply carries the term from before. */
  function Replicate(s: Server, a: AppendArgs, term: nat): (Server, AppendReply)
    requires s.log != []
  {
    if LogLength(s) <= a.prevLogIndex then (s, FailedReply(s, term, |s.log| - 1))
    else if s.snapshotLastIndex > a.prevLogIndex then
      (s, AppendReply(term, false, s.snapshotLastTerm, s.snapshotLastIndex))
    else
      var at := a.prevLogIndex - s.snapshotLastIndex;
      if s.log[at].term != a.prevLogTerm then (s, FailedReply(s, term, at))
      else
        var s' := s.(log := Merge(s.log, at + 1, a.entries));
        var commit := if a.leaderCommit > s.commitIndex
                      then Min(a.leaderCommit, LogLength(s') - 1) else s.commitIndex;
        (s'.(commitIndex := commit), AppendReply(term, true, 0, 0))
  }

  function AppendEntries(s: Server, a: AppendArgs): (Server, AppendReply)
    requires WellFormed(s)
  {
    if a.term < s.currentTerm then (s, AppendReply(s.currentTerm, false, 0, 0))
    else
      var s1 := if a.term > s.currentTerm then BecomeFollower(s, a.term) else s.(role := Follower);
      Replicate(s1, a, s.currentTerm)
  }

  /** `updateCommitIndex`: the median of what the peers hold, if it is an entry of this term. */
  function UpdateCommitIndex(s: Server): Server
    requires WellFormed(s)
    requires s.snapshotLastIndex <= Median(s.matchIndex) < LogLength(s)
  {
    if At(s, Median(s.matchIndex)).term == s.currentTerm
    then s.(commitIndex := Median(s.matchIndex)) else s
  }

  /** The reply is looked at past the checks of `sendEntries`. */
  predicate TakesAppendReply(s: Server, peer: nat, a: AppendArgs, r: AppendReply)
    requires WellFormed(s)
  {
    && r.term <= s.currentTerm && s.role == Leader && s.currentTerm == a.term
    && peer < s.n && s.nextIndex[peer] == a.prevLogIndex + 1
  }

  /** The leader after noting that `peer` holds its log up to the last entry sent. */
  function Matched(s: Server, peer: nat, a: AppendArgs): Server
    requires WellFormed(s) && peer < s.n
  {
    var last := a.prevLogIndex + |a.entries|;
    s.(nextIndex := s.nextIndex[peer := last + 1], matchIndex := s.matchIndex[peer := last])
  }

  /** The median `updateCommitIndex` looks up is inside the log. */
  predicate MedianInLog(s: Server)
    requires WellFormed(s)
  {
    s.snapshotLastIndex <= Median(s.matchIndex) < LogLength(s)
  }

  /** `sendEntries` after the call to `peer` has returned. */
  function ReceiveAppend(s: Server, peer: nat, a: AppendArgs, r: AppendReply): Server
    requires WellFormed(s)
    requires TakesAppendReply(s, peer, a, r) && r.success ==> MedianInLog(Matched(s, peer, a))
  {
    if r.term > s.currentTerm then BecomeFollower(s, r.term)
    else if !TakesAppendReply(s, peer, a, r) then s
    else if !r.success then s.(nextIndex := s.nextIndex[peer := r.failedFirstIndex])
    else UpdateCommitIndex(Matched(s, peer, a))
  }

  // ----- snapshots -----

  function TrimLogFrom(s: Server, index: nat, term: nat): Server
    requires s.snapshotLastIndex <= index < LogLength(s)
  {
    s.(log := [Sentinel(term)] + s.log[index - s.snapshotLastIndex + 1..])
  }

  /** `Snapshot(index, data)`, called by the service. */
  function TakeSnapshot(s: Server, index: nat, data: Snapshot): Server
    requires index < LogLength(s)
  {
    if s.snapshotLastIndex >= index then s
    else
      var term := At(s, index).term;
      TrimLogFrom(s, index, term).(snapshotLastTerm := term, snapshot := data, snapshotLastIndex := index)
  }

  /** `InstallSnapshot`; the reply is the term before the call. */
  function InstallSnapshot(s: Server, a: InstallArgs): Server {
    if a.term < s.currentTerm || s.snapshotLastIndex >= a.lastIncludedIndex then s
    else
      var s1 :=
        if a.lastIncludedIndex < LogLength(s) && At(s, a.lastIncludedIndex).term == a.lastIncludedTerm
        then TrimLogFrom(s, a.lastIncludedIndex, a.lastIncludedTerm)
        else s.(log := [Sentinel(a.lastIncludedTerm)]);
      s1.(commitIndex := Max(s.commitIndex, a.lastIncludedIndex),
          snapshotLastIndex := a.lastIncludedIndex, snapshotLastTerm := a.lastIncludedTerm,
          snapshot := a.data, isSnapshotApplied := false)
  }

  /** What a leader sends to a peer whose entries it no longer has. */
  function SnapshotFor(s: Server): InstallArgs {
    InstallArgs(s.currentTerm, s.me, s.snapshotLastIndex, s.snapshotLastTerm, s.snapshot)
  }

  /** The reply is looked at past the checks of `sendInstallSnapshot`. */
  predicate TakesInstallReply(s: Server, a: InstallArgs, term: nat) {
    term <= s.currentTerm && s.role == Leader && s.currentTerm == a.term && a.lastIncludedIndex == s.snapshotLastIndex
  }

  /** The leader after noting that `peer` has the snapshot. */
  function Supplied(s: Server, peer: nat, a: InstallArgs): Server
    requires WellFormed(s) && peer < s.n
  {
    s.(nextIndex := s.nextIndex[peer := Max(a.lastIncludedIndex + 1, s.nextIndex[peer])],
       matchIndex := s.matchIndex[peer := Max(a.lastIncludedIndex, s.matchIndex[peer])])
  }

  /** `sendInstallSnapshot` after the call to `peer` has returned. */
  function ReceiveInstall(s: Server, peer: nat, a: InstallArgs, term: nat): Server
    requires WellFormed(s) && peer < s.n
    requires TakesInstallReply(s, a, term) ==> MedianInLog(Supplied(s, peer, a))
  {
    if term > s.currentTerm then BecomeFollower(s, term)
    else if !TakesInstallReply(s, a, term) then s
    else UpdateCommitIndex(Supplied(s, peer, a))
  }
}
