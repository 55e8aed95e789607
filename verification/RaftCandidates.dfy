/** Elections are never out of reach: from every reachable state of two or more servers some server can win
    one, and then leads a cluster that follows it. */
module RaftCandidates {
  import opened RaftServer
  import opened RaftCluster
  import opened RaftInvariant
  import opened RaftElections
  import opened RaftSafety
  import opened RaftOutcomes
  import opened Quorum

  /** A finite run, and its last state. */
  datatype Run = Run(states: seq<Cluster>, steps: seq<Step>)

  predicate Runs(n: nat, r: Run) {
    IsRun(n, r.states, r.steps)
  }

  function Last(n: nat, r: Run): Cluster
    requires Runs(n, r)
  {
    r.states[|r.steps|]
  }

  predicate Continues(r: Run, r': Run) {
    r.states <= r'.states && r.steps <= r'.steps
  }

  /** The invariant at the end of a run. */
  lemma Explained(n: nat, r: Run) returns (h: History)
    requires Runs(n, r) && ElectionsMeet(n)
    ensures Inv(Last(n, r), h) && |Last(n, r).servers| == n
  {
    var hs := RunExplained(n, r.states, r.steps, |r.steps|);
    h := hs[|r.steps|];
    assert Inv(r.states[|r.steps|], hs[|r.steps|]);
  }

  /** Every server of the state has the shape the regions rely on. */
  predicate Sound(n: nat, c: Cluster) {
    && Shaped(c) && |c.servers| == n
    && forall i {:trigger c.servers[i]} :: 0 <= i < n ==> WellFormed(c.servers[i]) && c.servers[i].me == i && c.servers[i].n == n
  }

  lemma SoundEnd(n: nat, r: Run)
    requires Runs(n, r) && ElectionsMeet(n)
    ensures Sound(n, Last(n, r))
  {
    var h := Explained(n, r);
  }

  /** A run with one more step: what is enabled is safe. */
  lemma OneMore(n: nat, r: Run, step: Step) returns (r': Run)
    requires Runs(n, r) && ElectionsMeet(n) && Shaped(Last(n, r)) && Enabled(Last(n, r), step)
    ensures Safe(Last(n, r), step) && Runs(n, r') && Continues(r, r') && Last(n, r') == Apply(Last(n, r), step)
    ensures Sound(n, Last(n, r')) && Sound(n, Last(n, r))
  {
    var c := Last(n, r);
    EnabledIsSafe(n, r, step);
    SoundEnd(n, r);
    r' := Run(r.states + [Apply(c, step)], r.steps + [step]);
    forall k | 0 <= k < |r'.steps| ensures StepAt(r'.states, r'.steps, k) {
      if k < |r.steps| { assert StepAt(r.states, r.steps, k); }
    }
    SoundEnd(n, r');
  }

  lemma EnabledIsSafe(n: nat, r: Run, step: Step)
    requires Runs(n, r) && ElectionsMeet(n) && Shaped(Last(n, r)) && Enabled(Last(n, r), step)
    ensures Safe(Last(n, r), step) && Shaped(Apply(Last(n, r), step))
  {
    var h := Explained(n, r);
    var h' := StepKeeps(Last(n, r), h, step);
  }

  // ----- the server to elect -----

  /** Server `p` would find the log of server `x` at least as late as its own. */
  predicate Defers(c: Cluster, p: nat, x: nat)
    requires p < |c.servers| && x < |c.servers| && c.servers[p].log != [] && c.servers[x].log != []
  {
    AtLeastAsLate(LastTerm(c.servers[x]), LogLength(c.servers[x]) - 1, c.servers[p])
  }

  /** Some server has a log to which every other one defers. */
  lemma {:induction false} SomeoneIsLatest(n: nat, c: Cluster, m: nat) returns (x: nat)
    requires Sound(n, c) && 1 <= m <= n
    ensures x < m && forall p :: 0 <= p < m ==> Defers(c, p, x)
    decreases m
  {
    x := 0;
    if m > 1 {
      var y := SomeoneIsLatest(n, c, m - 1);
      x := if Defers(c, m - 1, y) then y else m - 1;
      forall p | 0 <= p < m ensures Defers(c, p, x) {
        if p < m - 1 { assert Defers(c, p, y); }
      }
    }
  }

  // ----- standing -----

  /** Only server `x` differs. */
  predicate OnlyAt(c: Cluster, c': Cluster, x: nat) {
    && |c'.servers| == |c.servers| && c'.epochs == c.epochs && c.calls <= c'.calls && c.replies <= c'.replies
    && forall i {:trigger c'.servers[i]} :: 0 <= i < |c.servers| && i != x ==> c'.servers[i] == c.servers[i]
  }

  /** Server `x` stands, and has asked every other one. */
  predicate Standing(n: nat, c: Cluster, x: nat) {
    && Sound(n, c) && x < n && c.servers[x].role == Candidate && |c.servers[x].votesReceived| == n
    && x in TrueAt(c.servers[x].votesReceived)
    && forall p :: 0 <= p < n && p != x ==> VoteCall(x, c.epochs[x], p, VoteRequest(c.servers[x])) in c.calls
  }

  lemma Stands(n: nat, r: Run, x: nat) returns (r': Run)
    requires Runs(n, r) && ElectionsMeet(n) && x < n
    ensures Runs(n, r') && Continues(r, r') && Standing(n, Last(n, r'), x) && Sound(n, Last(n, r))
    ensures OnlyAt(Last(n, r), Last(n, r'), x)
    ensures var s, t := Last(n, r).servers[x], Last(n, r').servers[x];
            t.currentTerm == s.currentTerm + 1 && t.log == s.log && t.snapshotLastIndex == s.snapshotLastIndex
  {
    SoundEnd(n, r);
    var c := Last(n, r);
    r' := OneMore(n, r, Timeout(x));
    var c' := Last(n, r');
    ElectionOutcome(c.servers[x]);
    forall p | 0 <= p < n && p != x ensures VoteCall(x, c'.epochs[x], p, VoteRequest(c'.servers[x])) in c'.calls {
      assert VoteCall(x, c.epochs[x], p, VoteRequest(c'.servers[x])) in VoteCalls(c'.servers[x], c.epochs[x]);
    }
  }

  /** By standing again and again a server gets ahead of any term. */
  lemma {:induction false} StandsAbove(n: nat, r: Run, x: nat, bound: nat) returns (r': Run)
    requires Runs(n, r) && ElectionsMeet(n) && x < n
    ensures Runs(n, r') && Continues(r, r') && Standing(n, Last(n, r'), x) && Sound(n, Last(n, r))
    ensures OnlyAt(Last(n, r), Last(n, r'), x)
    ensures var s, t := Last(n, r).servers[x], Last(n, r').servers[x];
            t.currentTerm > bound && t.log == s.log && t.snapshotLastIndex == s.snapshotLastIndex
    decreases (SoundEnd(n, r); bound - Last(n, r).servers[x].currentTerm)
  {
    SoundEnd(n, r);
    r' := Stands(n, r, x);
    if Last(n, r').servers[x].currentTerm <= bound { r' := StandsAbove(n, r', x, bound); }
  }

  /** A bound on the terms of the first `m` servers. */
  function TopTerm(c: Cluster, m: nat): (top: nat)
    requires m <= |c.servers|
    ensures forall p :: 0 <= p < m ==> c.servers[p].currentTerm <= top
  {
    if m == 0 then 0 else Max(TopTerm(c, m - 1), c.servers[m - 1].currentTerm)
  }

  // ----- being voted for -----

  /** The vote of server `p` for the candidacy of `x` is on its way. */
  predicate Granted(c: Cluster, x: nat, p: nat)
    requires Shaped(c) && x < |c.servers| && c.servers[x].log != []
  {
    exists term :: 0 <= term <= c.servers[x].currentTerm
      && Voted(VoteCall(x, c.epochs[x], p, VoteRequest(c.servers[x])), VoteReply(term, true)) in c.replies
  }

  /** Server `p` follows in the term of `x`. */
  predicate Follows(c: Cluster, x: nat, p: nat)
    requires p < |c.servers| && x < |c.servers|
  {
    c.servers[p].currentTerm == c.servers[x].currentTerm && c.servers[p].role == Follower
  }

  /** The servers below `k` have granted their votes, the others will. */
  predicate Polled(n: nat, c: Cluster, x: nat, k: nat) {
    && Standing(n, c, x)
    && (forall p {:trigger Granted(c, x, p)} :: 0 <= p < k && p < n && p != x ==> Granted(c, x, p) && Follows(c, x, p))
    && (forall p {:trigger Defers(c, p, x)} :: k <= p < n && p != x ==>
          Defers(c, p, x) && c.servers[p].currentTerm < c.servers[x].currentTerm)
  }

  lemma Votes(n: nat, c: Cluster, x: nat, k: nat)
    requires Polled(n, c, x, k) && k < n && k != x
    ensures var call := VoteCall(x, c.epochs[x], k, VoteRequest(c.servers[x]));
            && Enabled(c, HandleVote(call)) && Safe(c, HandleVote(call))
            && var c' := Apply(c, HandleVote(call));
            && OnlyAt(c, c', k) && Granted(c', x, k) && Follows(c', x, k) && c'.servers[k].log == c.servers[k].log
  {
    var s, a := c.servers[k], VoteRequest(c.servers[x]);
    var call := VoteCall(x, c.epochs[x], k, a);
    assert Defers(c, k, x) && call in c.calls;
    VoteGrantedIff(s, a);
    var c' := Apply(c, HandleVote(call));
    assert Voted(call, VoteReply(s.currentTerm, true)) in c'.replies;
  }

  /** Every other server votes. */
  lemma {:induction false} AllVote(n: nat, r: Run, x: nat, k: nat) returns (r': Run)
    requires Runs(n, r) && ElectionsMeet(n) && Polled(n, Last(n, r), x, k) && k <= n
    ensures Runs(n, r') && Continues(r, r') && Polled(n, Last(n, r'), x, n)
    ensures Last(n, r').servers[x] == Last(n, r).servers[x] && SameLogs(Last(n, r), Last(n, r'))
    decreases n - k
  {
    r' := r;
    if k < n {
      var c := Last(n, r);
      if k != x {
        Votes(n, c, x, k);
        r' := OneMore(n, r, HandleVote(VoteCall(x, c.epochs[x], k, VoteRequest(c.servers[x]))));
        PolledMore(n, c, Last(n, r'), x, k);
      }
      r' := AllVote(n, r', x, k + 1);
    }
  }

  predicate SameLogs(c: Cluster, c': Cluster) {
    |c'.servers| == |c.servers| && forall i {:trigger c'.servers[i]} :: 0 <= i < |c.servers| ==> c'.servers[i].log == c.servers[i].log
  }

  lemma PolledMore(n: nat, c: Cluster, c': Cluster, x: nat, k: nat)
    requires Polled(n, c, x, k) && k < n && k != x && Sound(n, c') && OnlyAt(c, c', k)
    requires Granted(c', x, k) && Follows(c', x, k)
    ensures Polled(n, c', x, k + 1)
  {
    forall p | 0 <= p < k + 1 && p < n && p != x ensures Granted(c', x, p) && Follows(c', x, p) {
      if p < k { assert Granted(c, x, p); }
    }
    forall p | k + 1 <= p < n && p != x ensures Defers(c', p, x) && c'.servers[p].currentTerm < c'.servers[x].currentTerm {
      assert Defers(c, p, x);
    }
  }

  // ----- winning -----

  /** The candidate leads, or has counted the votes below `k` and not got enough. */
  predicate Tallied(n: nat, s: Server, x: nat, k: nat) {
    && s.role != Follower
    && (s.role == Candidate ==>
          && |s.votesReceived| == n && (k > 1 || (k == 1 && x != 0) ==> 2 * |TrueAt(s.votesReceived)| < n)
          && forall p {:trigger p in TrueAt(s.votesReceived)} :: 0 <= p < n && (p < k || p == x) ==> p in TrueAt(s.votesReceived))
  }

  /** The other servers follow `x`, which has counted the votes below `k`. */
  predicate Counted(n: nat, c: Cluster, x: nat, k: nat) {
    && Sound(n, c) && x < n && Tallied(n, c.servers[x], x, k)
    && forall p {:trigger Granted(c, x, p)} :: 0 <= p < n && p != x ==> Granted(c, x, p) && Follows(c, x, p)
  }

  lemma CountsOne(n: nat, s: Server, k: nat, r: VoteReply)
    requires WellFormed(s) && s.n == n && k < n && k != s.me && Tallied(n, s, s.me, k) && s.role == Candidate
    requires r.granted && r.term <= s.currentTerm
    ensures var t := ReceiveVote(s, k, s.currentTerm, r);
            && Tallied(n, t, s.me, k + 1) && VoteRequest(t) == VoteRequest(s)
            && t.log == s.log && t.currentTerm == s.currentTerm
  {
    VoteWinsIff(s, k, s.currentTerm, r);
  }

  lemma GrantedReply(c: Cluster, x: nat, p: nat) returns (reply: Reply)
    requires Shaped(c) && x < |c.servers| && c.servers[x].log != [] && Granted(c, x, p)
    ensures reply in c.replies && reply.Voted? && reply.call == VoteCall(x, c.epochs[x], p, VoteRequest(c.servers[x]))
    ensures reply.voted.granted && reply.voted.term <= c.servers[x].currentTerm
  {
    var term :| 0 <= term <= c.servers[x].currentTerm
      && Voted(VoteCall(x, c.epochs[x], p, VoteRequest(c.servers[x])), VoteReply(term, true)) in c.replies;
    reply := Voted(VoteCall(x, c.epochs[x], p, VoteRequest(c.servers[x])), VoteReply(term, true));
  }

  lemma Counts(n: nat, c: Cluster, x: nat, k: nat) returns (reply: Reply)
    requires Counted(n, c, x, k) && k < n && k != x && c.servers[x].role == Candidate
    ensures Enabled(c, FinishVote(reply)) && Safe(c, FinishVote(reply))
    ensures var c' := Apply(c, FinishVote(reply));
            && OnlyAt(c, c', x) && (Sound(n, c') ==> Counted(n, c', x, k + 1)) && c'.servers[x].log == c.servers[x].log
            && c'.servers[x].currentTerm == c.servers[x].currentTerm
  {
    reply := GrantedReply(c, x, k);
    CountsOne(n, c.servers[x], k, reply.voted);
    var c' := Apply(c, FinishVote(reply));
    forall p | 0 <= p < n && p != x ensures Granted(c', x, p) && Follows(c', x, p) { assert Granted(c, x, p); }
  }

  lemma {:induction false} AllCounted(n: nat, r: Run, x: nat, k: nat) returns (r': Run)
    requires Runs(n, r) && ElectionsMeet(n) && n >= 2 && Counted(n, Last(n, r), x, k) && k <= n
    ensures Runs(n, r') && Continues(r, r') && Leading(n, Last(n, r'), x) && SameLogs(Last(n, r), Last(n, r'))
    decreases n - k
  {
    r' := r;
    var c := Last(n, r);
    if c.servers[x].role == Candidate {
      if k == n {
        AllAreMany(n, TrueAt(c.servers[x].votesReceived));
        assert false;
      } else {
        if k != x {
          var reply := Counts(n, c, x, k);
          r' := OneMore(n, r, FinishVote(reply));
        }
        r' := AllCounted(n, r', x, k + 1);
      }
    } else {
      forall p | 0 <= p < n && p != x ensures Follows(c, x, p) { assert Granted(c, x, p); }
    }
  }

  lemma {:induction false} AllAreMany(n: nat, q: set<nat>)
    requires forall p :: 0 <= p < n ==> p in q
    ensures |q| >= n
  {
    if n > 0 { AllAreMany(n - 1, q - {n - 1}); }
  }

  /** Server `x` leads, and every other server follows in its term. */
  predicate Leading(n: nat, c: Cluster, x: nat) {
    Sound(n, c) && x < n && c.servers[x].role == Leader && forall p :: 0 <= p < n && p != x ==> Follows(c, x, p)
  }

  /** From every reachable state some server can win an election, and then lead servers that all follow it; no log
      changes on the way. */
  lemma ElectionCanSucceed(n: nat, r: Run) returns (r': Run, x: nat)
    requires Runs(n, r) && ElectionsMeet(n) && n >= 2
    ensures Runs(n, r') && Continues(r, r') && Leading(n, Last(n, r'), x) && SameLogs(Last(n, r), Last(n, r'))
  {
    SoundEnd(n, r);
    var c := Last(n, r);
    x := SomeoneIsLatest(n, c, n);
    r' := StandsAbove(n, r, x, TopTerm(c, n));
    var c' := Last(n, r');
    forall p | 0 <= p < n && p != x ensures Defers(c', p, x) && c'.servers[p].currentTerm < c'.servers[x].currentTerm {
      assert Defers(c, p, x);
    }
    r' := AllVote(n, r', x, 0);
    r' := AllCounted(n, r', x, 0);
  }
}
