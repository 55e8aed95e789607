/** For which cluster sizes Election Safety holds: the vote threshold `(len(peers)+1)/2` is only
    half of the servers when their number is even. */
module RaftQuorumSize {
  import opened RaftServer
  import opened RaftCluster
  import RaftInvariant
  import opened RaftElections
  import opened RaftSafety
  import opened Quorum

  ghost predicate Reachable(n: nat, c: Cluster) {
    exists states, steps :: EndsIn(n, states, steps, c)
  }

  predicate EndsIn(n: nat, states: seq<Cluster>, steps: seq<Step>, c: Cluster) {
    IsRun(n, states, steps) && states[|steps|] == c
  }

  lemma ReachMore(n: nat, c: Cluster, step: Step)
    requires Reachable(n, c) && Shaped(c) && Enabled(c, step) && Safe(c, step)
    ensures Reachable(n, Apply(c, step))
  {
    var states, steps :| EndsIn(n, states, steps, c);
    var states', steps' := states + [Apply(c, step)], steps + [step];
    forall k | 0 <= k <= |steps'| ensures Shaped(states'[k]) {
      if k <= |steps| { assert states'[k] == states[k]; }
    }
    forall k | 0 <= k < |steps'| ensures StepAt(states', steps', k) {
      if k < |steps| { assert StepAt(states, steps, k); }
    }
    assert EndsIn(n, states', steps', Apply(c, step));
  }

  predicate OneLeaderPerTerm(c: Cluster) {
    forall a, b | 0 <= a < |c.servers| && 0 <= b < |c.servers| ::
      (c.servers[a].role == Leader && c.servers[b].role == Leader
       && c.servers[a].currentTerm == c.servers[b].currentTerm) ==> a == b
  }

  // ----- a split vote -----

  function Fresh(n: nat, i: nat): Server {
    Boot(i, n, BlankDisk())
  }

  /** Server `x` stands in term 1 with an empty log. */
  predicate Standing(n: nat, c: Cluster, x: nat) {
    && |c.servers| == |c.epochs| == n && x < n && c.epochs[x] == 0
    && var s := c.servers[x];
    && WellFormed(s) && s.me == x && s.n == n && s.currentTerm == 1 && s.role == Candidate && |s.votesReceived| == n
    && s.log == [Sentinel(0)] && s.snapshotLastIndex == 0
    && forall v :: 0 <= v < n && v != x ==> VoteCall(x, 0, v, VoteArgs(1, x, 0, 0)) in c.calls
  }

  /** `v` votes for `x`, and the reply comes back. */
  function Voting(c: Cluster, x: nat, v: nat): Cluster
    requires x < |c.servers| && WellFormed(c.servers[x]) && v < |c.servers[x].votesReceived| && v < |c.servers| && v != x
    requires c.servers[x].currentTerm == 1 && c.servers[x].role == Candidate
  {
    var call := VoteCall(x, 0, v, VoteArgs(1, x, 0, 0));
    var s, t := c.servers[x], c.servers[v];
    c.(servers := c.servers[v := BecomeFollower(t, 1).(votedFor := x)][x := ReceiveVote(s, v, 1, VoteReply(0, true))],
       replies := c.replies + {Voted(call, VoteReply(0, true))})
  }

  lemma VoteGiven(n: nat, c: Cluster, x: nat, v: nat)
    requires Reachable(n, c) && Standing(n, c, x) && v < n && v != x && c.servers[v] == Fresh(n, v)
    ensures Reachable(n, Voting(c, x, v))
  {
    var call := VoteCall(x, 0, v, VoteArgs(1, x, 0, 0));
    assert call in c.calls;
    var c1 := Apply(c, HandleVote(call));
    ReachMore(n, c, HandleVote(call));
    var r := Voted(call, VoteReply(0, true));
    assert r in c1.replies;
    ReachMore(n, c1, FinishVote(r));
    assert Apply(c1, FinishVote(r)) == Voting(c, x, v);
  }

  lemma CountOneMore(flags: seq<bool>, v: nat)
    requires v < |flags| && !flags[v]
    ensures CountTrue(flags[v := true]) == CountTrue(flags) + 1
  {
    CountTrueIsSize(flags);
    CountTrueIsSize(flags[v := true]);
    assert TrueAt(flags[v := true]) == TrueAt(flags) + {v};
  }

  /** Nothing but the candidate and the voters `from .. from+m` changes. */
  predicate OthersKeep(c: Cluster, c': Cluster, x: nat, from: nat, m: nat) {
    && |c'.servers| == |c.servers| && c'.epochs == c.epochs && c.calls <= c'.calls
    && forall i :: 0 <= i < |c.servers| && i != x && !(from <= i < from + m) ==> c'.servers[i] == c.servers[i]
  }

  /** With `m` fresh voters making up half of the cluster, the candidate wins. */
  lemma {:induction false} Campaign(n: nat, c: Cluster, x: nat, from: nat, m: nat) returns (c': Cluster)
    requires Reachable(n, c) && Standing(n, c, x) && n % 2 == 0
    requires m >= 1 && from + m <= n && !(from <= x < from + m)
    requires forall v :: from <= v < from + m ==> c.servers[v] == Fresh(n, v) && !c.servers[x].votesReceived[v]
    requires CountTrue(c.servers[x].votesReceived) + m == n / 2
    ensures Reachable(n, c') && OthersKeep(c, c', x, from, m)
    ensures c'.servers[x].role == Leader && c'.servers[x].currentTerm == 1
    decreases m
  {
    VoteGiven(n, c, x, from);
    var c1 := Voting(c, x, from);
    CountOneMore(c.servers[x].votesReceived, from);
    if m == 1 {
      c' := c1;
    } else {
      c' := Campaign(n, c1, x, from + 1, m - 1);
    }
  }

  lemma TwoStand(n: nat) returns (c: Cluster)
    requires n >= 2
    ensures Reachable(n, c) && Standing(n, c, 0) && Standing(n, c, 1)
    ensures forall v :: 2 <= v < n ==> c.servers[v] == Fresh(n, v)
    ensures c.servers[0].votesReceived == seq(n, i => i == 0) && c.servers[1].votesReceived == seq(n, i => i == 1)
  {
    var c0 := Initial(n);
    assert EndsIn(n, [c0], [], c0);
    ReachMore(n, c0, Timeout(0));
    var c1 := Apply(c0, Timeout(0));
    ReachMore(n, c1, Timeout(1));
    c := Apply(c1, Timeout(1));
    forall v | 0 <= v < n && v != 0 ensures VoteCall(0, 0, v, VoteArgs(1, 0, 0, 0)) in c.calls {
      assert VoteCall(0, 0, v, VoteRequest(c1.servers[0])) in VoteCalls(c1.servers[0], 0);
    }
    forall v | 0 <= v < n && v != 1 ensures VoteCall(1, 0, v, VoteArgs(1, 1, 0, 0)) in c.calls {
      assert VoteCall(1, 0, v, VoteRequest(c.servers[1])) in VoteCalls(c.servers[1], 0);
    }
  }

  lemma CountSelf(n: nat, x: nat)
    requires x < n
    ensures CountTrue(seq(n, i => i == x)) == 1
  {
    CountTrueIsSize(seq(n, i => i == x));
    assert TrueAt(seq(n, i => i == x)) == {x};
  }

  /** With an even number of servers above two, two leaders can share a term. */
  lemma EvenClusterSplits(n: nat) returns (c: Cluster)
    requires n % 2 == 0 && n >= 4
    ensures Reachable(n, c) && !OneLeaderPerTerm(c)
  {
    var c0 := TwoStand(n);
    CountSelf(n, 0);
    CountSelf(n, 1);
    var m := n / 2 - 1;
    var c1 := Campaign(n, c0, 0, 2, m);
    c := Campaign(n, c1, 1, 2 + m, m);
    assert c.servers[0] == c1.servers[0];
  }

  /** Election Safety holds of exactly the odd cluster sizes and those up to two. */
  lemma ElectionSafetyIffQuorum(n: nat)
    ensures (forall c :: Reachable(n, c) ==> OneLeaderPerTerm(c)) <==> n % 2 == 1 || n <= 2
  {
    if n % 2 == 1 || n <= 2 {
      forall c | Reachable(n, c) ensures OneLeaderPerTerm(c) {
        var states, steps :| EndsIn(n, states, steps, c);
        forall a, b | 0 <= a < |c.servers| && 0 <= b < |c.servers|
          && c.servers[a].role == Leader && c.servers[b].role == Leader
          && c.servers[a].currentTerm == c.servers[b].currentTerm
          ensures a == b
        {
          SameLength(n, states, steps);
          ElectionSafety(n, states, steps, |steps|, a, |steps|, b);
        }
      }
    } else {
      var c := EvenClusterSplits(n);
    }
  }

  lemma SameLength(n: nat, states: seq<Cluster>, steps: seq<Step>)
    requires IsRun(n, states, steps) && ElectionsMeet(n)
    ensures |states[|steps|].servers| == n
  {
    var hs := RunExplained(n, states, steps, |steps|);
    assert RaftInvariant.Inv(states[|steps|], hs[|steps|]);
  }
}
