/** Why the bound on refusals is per stretch between successes: a refusal that is taken again after a
    success sends the leader back again, as often as such replies arrive. */
module RaftStale {
  import opened RaftServer
  import opened RaftCluster
  import opened RaftRefusals
  import RaftSafety
  import opened Quorum

  lemma OneMore(n: nat, states: seq<Cluster>, steps: seq<Step>, step: Step) returns (states': seq<Cluster>, steps': seq<Step>)
    requires IsRun(n, states, steps) && Enabled(states[|steps|], step) && Safe(states[|steps|], step)
    ensures IsRun(n, states', steps') && steps' == steps + [step] && states' == states + [Apply(states[|steps|], step)]
  {
    states', steps' := states + [Apply(states[|steps|], step)], steps + [step];
    forall k | 0 <= k <= |steps'| ensures Shaped(states'[k]) {
      if k <= |steps| { assert states'[k] == states[k]; }
    }
    forall k | 0 <= k < |steps'| ensures StepAt(states', steps', k) {
      if k < |steps| { assert StepAt(states, steps, k); }
    }
  }

  // ----- two servers -----

  /** A leader of the term: `next` is its position for the other server, `held` what that one is known to hold. */
  function LeaderOf(term: nat, log: seq<Entry>, next: nat, held: nat): Server
    requires log != []
  {
    Server(0, 2, Leader, term, 0, [true, true], log, 0, 0, [|log|, next], [|log| - 1, held], true, 0, 0, "")
  }

  /** The other server, having voted for it. */
  function VoterOf(term: nat, log: seq<Entry>): Server {
    Server(1, 2, Follower, term, 0, [], log, 0, 0, [0, 0], [0, 0], true, 0, 0, "")
  }

  lemma Elected(s: Server, r: VoteReply)
    requires WellFormed(s) && s.me == 0 && s.n == 2 && s.role == Candidate && s.votedFor == 0 && s.commitIndex == 0
    requires s.votesReceived == seq(2, i => i == 0) && s.snapshotLastIndex == 0 && s.snapshotLastTerm == 0
    requires s.snapshot == "" && s.lastApplied == 0 && s.isSnapshotApplied && r.granted && r.term <= s.currentTerm
    ensures ReceiveVote(s, 1, s.currentTerm, r) == LeaderOf(s.currentTerm, s.log, |s.log|, 0)
  {
    var votes := s.votesReceived[1 := true];
    assert votes == [true, true];
    CountTrueIsSize(votes);
    assert TrueAt(votes) == {0, 1};
    var l := ReceiveVote(s, 1, s.currentTerm, r);
    assert l.nextIndex == [|s.log|, |s.log|] && l.matchIndex == [|s.log| - 1, 0];
  }

  /** Server 0 stands and wins with the vote of server 1, whose log is no longer. */
  lemma Wins(states: seq<Cluster>, steps: seq<Step>, log: seq<Entry>, shorter: seq<Entry>)
    returns (states': seq<Cluster>, steps': seq<Step>)
    requires IsRun(2, states, steps) && states[|steps|].epochs == [0, 0] && log != [] && shorter != []
    requires var s, v := states[|steps|].servers[0], states[|steps|].servers[1];
             && states[|steps|].servers == [s, v] && s.me == 0 && s.n == 2 && s.log == log && s.commitIndex == 0
             && v == VoterOf(s.currentTerm, shorter).(votedFor := v.votedFor) && -1 <= v.votedFor < 2
             && WellFormed(s) && s.snapshotLastIndex == 0 && s.snapshotLastTerm == 0 && s.snapshot == "" && s.lastApplied == 0
             && s.isSnapshotApplied
    requires shorter[|shorter| - 1].term <= log[|log| - 1].term && |shorter| <= |log|
    ensures IsRun(2, states', steps') && states <= states'
    ensures states'[|steps'|].epochs == [0, 0]
    ensures var term := states[|steps|].servers[0].currentTerm + 1;
            states'[|steps'|].servers == [LeaderOf(term, log, |log|, 0), VoterOf(term, shorter)]
  {
    var c := states[|steps|];
    var s := StartElection(c.servers[0]);
    var call := VoteCall(0, 0, 1, VoteRequest(s));
    states', steps' := OneMore(2, states, steps, Timeout(0));
    assert call in VoteCalls(s, 0);
    states', steps' := OneMore(2, states', steps', HandleVote(call));
    var reply := Voted(call, VoteReply(c.servers[0].currentTerm, true));
    assert reply in states'[|steps'|].replies && states'[|steps'|].servers == [s, VoterOf(s.currentTerm, shorter)];
    Elected(s, reply.voted);
    states', steps' := OneMore(2, states', steps', FinishVote(reply));
  }

  const EMPTY: seq<Entry> := [Sentinel(0)]
  const LONGER: seq<Entry> := [Sentinel(0), Entry(1, "x")]

  /** Server 0 wins term 1, adds an entry that reaches nobody, and wins term 2. */
  lemma SecondTerm() returns (states: seq<Cluster>, steps: seq<Step>)
    ensures IsRun(2, states, steps) && states[|steps|].epochs == [0, 0]
    ensures states[|steps|].servers == [LeaderOf(2, LONGER, 2, 0), VoterOf(2, EMPTY)]
  {
    states, steps := [Initial(2)], [];
    assert Initial(2).servers == [Boot(0, 2, BlankDisk()), Boot(1, 2, BlankDisk())] && Initial(2).epochs == [0, 0];
    assert Boot(1, 2, BlankDisk()) == VoterOf(0, EMPTY).(votedFor := -1);
    states, steps := Wins(states, steps, EMPTY, EMPTY);
    var s := Start(LeaderOf(1, EMPTY, 1, 0), "x").0;
    assert s.log == LONGER;
    states, steps := OneMore(2, states, steps, Submit(0, "x"));
    assert states[|steps|].servers == [s, VoterOf(1, EMPTY)];
    states, steps := Wins(states, steps, LONGER, EMPTY);
  }

  function Probe(): Call {
    AppendCall(0, 0, 1, AppendArgs(2, 0, 0, 1, 1, []))
  }

  function Retry(): Call {
    AppendCall(0, 0, 1, AppendArgs(2, 0, 0, 0, 0, [Entry(1, "x")]))
  }

  function No(): Reply {
    Appended(Probe(), AppendReply(2, false, 0, 1))
  }

  function Yes(): Reply {
    Appended(Retry(), AppendReply(2, true, 0, 0))
  }

  /** The two answers are under way, and the leader is at position `next`. */
  predicate Between(c: Cluster, next: nat, held: nat, log: seq<Entry>) {
    && c.epochs == [0, 0] && c.servers == [LeaderOf(2, LONGER, next, held), VoterOf(2, log)] && No() in c.replies
  }

  /** The peer, whose log is empty, refuses the first message. */
  lemma FirstRefusal() returns (states: seq<Cluster>, steps: seq<Step>)
    ensures IsRun(2, states, steps) && Between(states[|steps|], 2, 0, EMPTY)
    ensures |steps| > 0 && RefusesAt(states, steps, |steps| - 1, 1, 2) && states[|steps| - 1].servers[1].log == EMPTY
  {
    states, steps := SecondTerm();
    var l := LeaderOf(2, LONGER, 2, 0);
    assert EntriesFor(l, 1) == Probe().append;
    states, steps := OneMore(2, states, steps, Heartbeat(0));
    assert Probe() in AppendCalls(l, 0);
    assert AppendEntries(VoterOf(2, EMPTY), Probe().append) == (VoterOf(2, EMPTY), AppendReply(2, false, 0, 1));
    states, steps := OneMore(2, states, steps, HandleAppend(Probe()));
  }

  /** It accepts the second, from the start. */
  lemma ThenAccepted() returns (states: seq<Cluster>, steps: seq<Step>, m: nat)
    ensures IsRun(2, states, steps) && Between(states[|steps|], 1, 0, LONGER) && Yes() in states[|steps|].replies
    ensures m < |steps| && RefusesAt(states, steps, m, 1, 2) && states[m].servers[1].log == EMPTY
  {
    states, steps := FirstRefusal();
    m := |steps| - 1;
    assert ReceiveAppend(LeaderOf(2, LONGER, 2, 0), 1, Probe().append, No().appended) == LeaderOf(2, LONGER, 1, 0);
    states, steps := OneMore(2, states, steps, FinishAppend(No()));
    var l := LeaderOf(2, LONGER, 1, 0);
    assert EntriesFor(l, 1) == Retry().append;
    states, steps := OneMore(2, states, steps, Heartbeat(0));
    assert Retry() in AppendCalls(l, 0);
    Accepts(VoterOf(2, EMPTY));
    states, steps := OneMore(2, states, steps, HandleAppend(Retry()));
  }

  lemma Accepts(s: Server)
    requires s == VoterOf(2, EMPTY)
    ensures AppendEntries(s, Retry().append) == (VoterOf(2, LONGER), AppendReply(2, true, 0, 0))
  {
    assert Merge(EMPTY, 1, [Entry(1, "x")]) == LONGER;
  }

  lemma TakesYes(held: nat)
    requires held <= 1
    ensures var l := LeaderOf(2, LONGER, 1, held);
            && MedianInLog(Matched(l, 1, Retry().append))
            && ReceiveAppend(l, 1, Retry().append, Yes().appended) == LeaderOf(2, LONGER, 2, 1)
  {
    var l := Matched(LeaderOf(2, LONGER, 1, held), 1, Retry().append);
    assert l == LeaderOf(2, LONGER, 2, 1) && l.matchIndex == [1, 1];
    MedianIsElement(l.matchIndex);
  }

  /** The leader takes the old refusal and then the old success. */
  lemma Cycle(states: seq<Cluster>, steps: seq<Step>) returns (states': seq<Cluster>, steps': seq<Step>)
    requires IsRun(2, states, steps) && Between(states[|steps|], 2, 1, LONGER) && Yes() in states[|steps|].replies
    ensures IsRun(2, states', steps') && states <= states' && steps <= steps' && |steps'| == |steps| + 2
    ensures Between(states'[|steps|], 2, 1, LONGER) && Between(states'[|steps| + 1], 1, 1, LONGER)
    ensures Between(states'[|steps'|], 2, 1, LONGER) && Yes() in states'[|steps'|].replies
    ensures TakesRefusal(states', steps', |steps|, 0, 1) && !TakesRefusal(states', steps', |steps| + 1, 0, 1)
  {
    assert ReceiveAppend(LeaderOf(2, LONGER, 2, 1), 1, Probe().append, No().appended) == LeaderOf(2, LONGER, 1, 1);
    states', steps' := OneMore(2, states, steps, FinishAppend(No()));
    TakesYes(1);
    states', steps' := OneMore(2, states', steps', FinishAppend(Yes()));
  }

  lemma {:induction false} CountStays(states: seq<Cluster>, steps: seq<Step>, states': seq<Cluster>, steps': seq<Step>,
                                      j: nat, k: nat, l: nat, p: nat)
    requires states <= states' && steps <= steps' && j <= k <= |steps| && |states| == |steps| + 1
    ensures Count(states', steps', j, k, l, p) == Count(states, steps, j, k, l, p)
    decreases k
  {
    if j < k { CountStays(states, steps, states', steps', j, k - 1, l, p); }
  }

  /** Server 0 leads term 2 in every state from `j` on. */
  predicate StillLeads(states: seq<Cluster>, j: nat) {
    forall i {:trigger states[i]} :: j <= i < |states| ==>
      |states[i].servers| == 2 && states[i].servers[0].role == Leader && states[i].servers[0].currentTerm == 2
  }

  lemma OneCycleMore(states: seq<Cluster>, steps: seq<Step>, j: nat) returns (states': seq<Cluster>, steps': seq<Step>)
    requires IsRun(2, states, steps) && Between(states[|steps|], 2, 1, LONGER) && Yes() in states[|steps|].replies
    requires j <= |steps| && StillLeads(states, j)
    ensures IsRun(2, states', steps') && Between(states'[|steps'|], 2, 1, LONGER) && Yes() in states'[|steps'|].replies
    ensures states <= states' && steps <= steps' && StillLeads(states', j)
    ensures Count(states', steps', j, |steps'|, 0, 1) == Count(states, steps, j, |steps|, 0, 1) + 1
  {
    states', steps' := Cycle(states, steps);
    CountStays(states, steps, states', steps', j, |steps|, 0, 1);
    var k := |steps|;
    assert Count(states', steps', j, k + 1, 0, 1) == Count(states', steps', j, k, 0, 1) + 1;
    assert Count(states', steps', j, k + 2, 0, 1) == Count(states', steps', j, k + 1, 0, 1);
  }

  lemma {:induction false} ManyCycles(count: nat) returns (states: seq<Cluster>, steps: seq<Step>, j: nat, m: nat)
    ensures IsRun(2, states, steps) && Between(states[|steps|], 2, 1, LONGER) && Yes() in states[|steps|].replies
    ensures j <= |steps| && StillLeads(states, j) && Count(states, steps, j, |steps|, 0, 1) == count
    ensures m < |steps| && RefusesAt(states, steps, m, 1, 2) && states[m].servers[1].log == EMPTY
  {
    if count == 0 {
      states, steps, m := ThenAccepted();
      TakesYes(0);
      states, steps := OneMore(2, states, steps, FinishAppend(Yes()));
      j := |steps|;
    } else {
      states, steps, j, m := ManyCycles(count - 1);
      states, steps := OneCycleMore(states, steps, j);
    }
  }

  /** No bound holds for a whole leadership: for every number there is a run in which one leader takes that
      many refusals from one peer within one term, although the log the peer refused with has one term. */
  lemma RefusalsUnbounded(count: nat) returns (states: seq<Cluster>, steps: seq<Step>, j: nat, m: nat)
    ensures IsRun(2, states, steps) && Leads(2, states, j, |steps|, 0, 2)
    ensures Count(states, steps, j, |steps|, 0, 1) == count
    ensures m < |steps| && RefusesAt(states, steps, m, 1, 2) && states[m].servers[1].log == [Sentinel(0)]
  {
    states, steps, j, m := ManyCycles(count);
    forall i | j <= i <= |steps|
      ensures RaftSafety.Serves(2, states, i, 0) && states[i].servers[0].role == Leader && states[i].servers[0].currentTerm == 2
    {
      assert |states[i].servers| == 2;
    }
  }
}
