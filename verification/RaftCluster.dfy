/** `n` Raft servers over a network that loses, delays, repeats and reorders messages.
    Every region of `src/raft1/raft.go` that runs under `rf.mu` is one atomic step, and a server may
    crash and restart between steps. No step compacts a log. */
module RaftCluster {
  import opened RaftServer
  import opened Quorum

  /** A remote call. `epoch` is the incarnation of the caller that is waiting for the reply. */
  datatype Call =
    | VoteCall(caller: nat, epoch: nat, callee: nat, vote: VoteArgs)
    | AppendCall(caller: nat, epoch: nat, callee: nat, append: AppendArgs)

  datatype Reply =
    | Voted(call: Call, voted: VoteReply)
    | Appended(call: Call, appended: AppendReply)

  /** Messages are never removed, so any of them may be handled late, again or never. */
  datatype Cluster = Cluster(servers: seq<Server>, epochs: seq<nat>, calls: set<Call>, replies: set<Reply>)

  datatype Step =
    | Timeout(i: nat)                    // startElection
    | HandleVote(call: Call)             // RequestVote
    | FinishVote(reply: Reply)           // sendRequestVote after its call
    | Submit(i: nat, command: Command)   // Start
    | Heartbeat(i: nat)                  // one round of runHeartbeatCycle
    | HandleAppend(call: Call)           // AppendEntries
    | FinishAppend(reply: Reply)         // sendEntries after its call
    | Restart(i: nat)                    // crash, then Make on the persisted state

  function Initial(n: nat): Cluster {
    Cluster(seq(n, i requires 0 <= i < n => Boot(i, n, BlankDisk())), seq(n, _ => 0), {}, {})
  }

  predicate Shaped(c: Cluster) {
    |c.servers| == |c.epochs|
  }

  /** The step can be taken: its server exists and its message is there to be handled. A reply is
      only received by the incarnation that made the call. */
  predicate Enabled(c: Cluster, step: Step)
    requires Shaped(c)
  {
    match step
    case Timeout(i) => i < |c.servers|
    case HandleVote(call) => call in c.calls && call.VoteCall? && call.callee < |c.servers|
    case FinishVote(r) =>
      r in c.replies && r.Voted? && r.call.VoteCall? && r.call.caller < |c.servers|
      && c.epochs[r.call.caller] == r.call.epoch
    case Submit(i, _) => i < |c.servers|
    case Heartbeat(i) => i < |c.servers| && c.servers[i].role == Leader
    case HandleAppend(call) => call in c.calls && call.AppendCall? && call.callee < |c.servers|
    case FinishAppend(r) =>
      r in c.replies && r.Appended? && r.call.AppendCall? && r.call.caller < |c.servers|
      && c.epochs[r.call.caller] == r.call.epoch
    case Restart(i) => i < |c.servers|
  }

  /** `StartSendEntries` finds every entry it looks up. */
  predicate CanSend(s: Server) {
    WellFormed(s) && forall p | 0 <= p < s.n && p != s.me :: s.nextIndex[p] <= LogLength(s)
  }

  /** Every slice access of the region is in range. */
  predicate Safe(c: Cluster, step: Step)
    requires Shaped(c) && Enabled(c, step)
  {
    match step
    case Timeout(i) => WellFormed(c.servers[i])
    case HandleVote(call) => WellFormed(c.servers[call.callee])
    case FinishVote(r) =>
      var s := c.servers[r.call.caller];
      WellFormed(s)
      && (CountsVote(s, r.call.vote.term, r.voted) ==> r.call.callee < |s.votesReceived|)
    case Submit(i, command) =>
      WellFormed(c.servers[i]) && (c.servers[i].role == Leader ==> CanSend(Start(c.servers[i], command).0))
    case Heartbeat(i) => CanSend(c.servers[i])
    case HandleAppend(call) => WellFormed(c.servers[call.callee])
    case FinishAppend(r) =>
      var s := c.servers[r.call.caller];
      WellFormed(s)
      && (TakesAppendReply(s, r.call.callee, r.call.append, r.appended) && r.appended.success
          ==> MedianInLog(Matched(s, r.call.callee, r.call.append)))
    case Restart(i) => WellFormed(c.servers[i])
  }

  /** The calls of a candidate. */
  function VoteCalls(s: Server, epoch: nat): set<Call>
    requires s.log != []
  {
    set p | 0 <= p < s.n && p != s.me :: VoteCall(s.me, epoch, p, VoteRequest(s))
  }

  /** The calls of `StartSendEntries`, except those that would send a snapshot. */
  function AppendCalls(s: Server, epoch: nat): set<Call>
    requires CanSend(s)
  {
    set p | 0 <= p < s.n && p != s.me && SendsEntries(s, p) :: AppendCall(s.me, epoch, p, EntriesFor(s, p))
  }

  function Put(c: Cluster, i: nat, s: Server, calls: set<Call>, replies: set<Reply>): Cluster
    requires i < |c.servers|
  {
    c.(servers := c.servers[i := s], calls := c.calls + calls, replies := c.replies + replies)
  }

  function Apply(c: Cluster, step: Step): Cluster
    requires Shaped(c) && Enabled(c, step) && Safe(c, step)
  {
    match step
    case Timeout(i) =>
      var s := StartElection(c.servers[i]);
      Put(c, i, s, VoteCalls(s, c.epochs[i]), {})
    case HandleVote(call) =>
      var (s, r) := RequestVote(c.servers[call.callee], call.vote);
      Put(c, call.callee, s, {}, {Voted(call, r)})
    case FinishVote(r) =>
      var i := r.call.caller;
      Put(c, i, ReceiveVote(c.servers[i], r.call.callee, r.call.vote.term, r.voted), {}, {})
    case Submit(i, command) =>
      var s := Start(c.servers[i], command).0;
      Put(c, i, s, if s.role == Leader then AppendCalls(s, c.epochs[i]) else {}, {})
    case Heartbeat(i) =>
      Put(c, i, c.servers[i], AppendCalls(c.servers[i], c.epochs[i]), {})
    case HandleAppend(call) =>
      var (s, r) := AppendEntries(c.servers[call.callee], call.append);
      Put(c, call.callee, s, {}, {Appended(call, r)})
    case FinishAppend(r) =>
      var i := r.call.caller;
      Put(c, i, ReceiveAppend(c.servers[i], r.call.callee, r.call.append, r.appended), {}, {})
    case Restart(i) =>
      var s := c.servers[i];
      Put(c, i, Boot(s.me, s.n, DiskOf(s)), {}, {}).(epochs := c.epochs[i := c.epochs[i] + 1])
  }

  /** A step that is not `Safe` would crash the program; the model then allows anything to follow. */
  predicate StepAt(states: seq<Cluster>, steps: seq<Step>, k: nat)
    requires k < |steps| && |states| == |steps| + 1 && Shaped(states[k])
  {
    Enabled(states[k], steps[k])
    && (Safe(states[k], steps[k]) ==> states[k + 1] == Apply(states[k], steps[k]))
  }

  /** The finite runs of `n` servers. */
  predicate IsRun(n: nat, states: seq<Cluster>, steps: seq<Step>) {
    && |states| == |steps| + 1
    && states[0] == Initial(n)
    && (forall k :: 0 <= k <= |steps| ==> Shaped(states[k]))
    && (forall k {:trigger StepAt(states, steps, k)} :: 0 <= k < |steps| ==> StepAt(states, steps, k))
  }
}
