/** The safety theorems of Raft, for every run of the cluster. */
module RaftSafety {
  import opened RaftServer
  import opened RaftCluster
  import opened RaftInvariant
  import opened RaftLogs
  import opened RaftGrowth
  import opened RaftElections
  import opened RaftReplication
  import opened Quorum

  lemma InitialInv(n: nat)
    ensures Inv(Initial(n), NoHistory())
  {
  }

  lemma StepKeeps(c: Cluster, h: History, step: Step) returns (h': History)
    requires Inv(c, h) && Enabled(c, step) && ElectionsMeet(|c.servers|)
    ensures Safe(c, step) && Grows(h, h') && Inv(Apply(c, step), h')
  {
    h' := h;
    match step
    case Timeout(i) => h' := TimeoutKeepsInv(c, h, i);
    case HandleVote(call) => h' := HandleVoteKeepsInv(c, h, call);
    case FinishVote(r) => h' := FinishVoteKeepsInv(c, h, r);
    case Submit(i, command) => h' := SubmitKeepsInv(c, h, i, command);
    case Heartbeat(i) => HeartbeatKeepsInv(c, h, i);
    case HandleAppend(call) => h' := HandleAppendKeepsInv(c, h, call);
    case FinishAppend(r) => h' := FinishAppendKeepsInv(c, h, r);
    case Restart(i) => RestartKeepsInv(c, h, i);
  }

  /** Histories that explain the first states of a run. */
  predicate Explains(n: nat, states: seq<Cluster>, steps: seq<Step>, hs: seq<History>) {
    && 0 < |hs| <= |states| == |steps| + 1
    && (forall k {:trigger Inv(states[k], hs[k])} :: 0 <= k < |hs| ==> Inv(states[k], hs[k]) && |states[k].servers| == n)
    && (forall j, k {:trigger Grows(hs[j], hs[k])} :: 0 <= j <= k < |hs| ==> Grows(hs[j], hs[k]))
  }

  lemma GrowsTwice(h: History, h1: History, h2: History)
    requires Grows(h, h1) && Grows(h1, h2)
    ensures Grows(h, h2)
  {
  }

  lemma ExplainOneMore(n: nat, states: seq<Cluster>, steps: seq<Step>, hs: seq<History>, h: History)
    requires Explains(n, states, steps, hs) && |hs| < |states|
    requires Inv(states[|hs|], h) && |states[|hs|].servers| == n && Grows(hs[|hs| - 1], h)
    ensures Explains(n, states, steps, hs + [h])
  {
    var hs' := hs + [h];
    forall k | 0 <= k < |hs'| ensures Inv(states[k], hs'[k]) && |states[k].servers| == n {
      if k < |hs| { assert Inv(states[k], hs[k]); }
    }
    forall i, j | 0 <= i <= j < |hs'| ensures Grows(hs'[i], hs'[j]) {
      if j < |hs| {
        assert Grows(hs[i], hs[j]);
      } else if i < |hs| {
        assert Grows(hs[i], hs[|hs| - 1]);
        GrowsTwice(hs[i], hs[|hs| - 1], h);
      }
    }
  }

  /** The step of the run was in range and was taken as written. */
  predicate Taken(states: seq<Cluster>, steps: seq<Step>, k: nat)
    requires k < |steps| && |states| == |steps| + 1 && Shaped(states[k])
  {
    Enabled(states[k], steps[k]) && Safe(states[k], steps[k]) && states[k + 1] == Apply(states[k], steps[k])
  }

  lemma ExplainNext(n: nat, states: seq<Cluster>, steps: seq<Step>, hs: seq<History>) returns (h: History)
    requires IsRun(n, states, steps) && ElectionsMeet(n) && Explains(n, states, steps, hs) && |hs| < |states|
    ensures Explains(n, states, steps, hs + [h]) && Taken(states, steps, |hs| - 1)
  {
    var k := |hs| - 1;
    assert Inv(states[k], hs[k]) && StepAt(states, steps, k);
    h := StepKeeps(states[k], hs[k], steps[k]);
    ExplainOneMore(n, states, steps, hs, h);
  }

  lemma {:induction false} RunExplained(n: nat, states: seq<Cluster>, steps: seq<Step>, k: nat)
    returns (hs: seq<History>)
    requires IsRun(n, states, steps) && ElectionsMeet(n) && k <= |steps|
    ensures |hs| == k + 1 && Explains(n, states, steps, hs)
    ensures forall j {:trigger Taken(states, steps, j)} :: 0 <= j < k ==> Taken(states, steps, j)
  {
    if k == 0 {
      InitialInv(n);
      hs := [NoHistory()];
    } else {
      var before := RunExplained(n, states, steps, k - 1);
      var h := ExplainNext(n, states, steps, before);
      hs := before + [h];
    }
  }

  // ----- the theorems -----

  /** No run ever indexes a log, a vote or a peer array out of range. */
  lemma NeverOutOfRange(n: nat, states: seq<Cluster>, steps: seq<Step>, k: nat)
    requires IsRun(n, states, steps) && ElectionsMeet(n) && k < |steps|
    ensures Taken(states, steps, k) && |states[k].servers| == n
  {
    var hs := RunExplained(n, states, steps, |steps|);
    assert Inv(states[k], hs[k]);
  }

  predicate Serves(n: nat, states: seq<Cluster>, k: nat, i: nat) {
    k < |states| && i < n && i < |states[k].servers|
  }

  lemma ServerAt(n: nat, states: seq<Cluster>, steps: seq<Step>, hs: seq<History>, k: nat, i: nat)
    requires Explains(n, states, steps, hs) && k < |hs| && i < n
    ensures Serves(n, states, k, i)
    ensures states[k].servers[i].me == i && states[k].servers[i].n == n && ServerOk(hs[k], states[k].servers[i])
    ensures HistoryOk(hs[k], n)
  {
    assert Inv(states[k], hs[k]);
  }

  /** Election Safety: two servers that ever lead in the same term are the same server. */
  lemma ElectionSafety(n: nat, states: seq<Cluster>, steps: seq<Step>, j: nat, a: nat, k: nat, b: nat)
    requires IsRun(n, states, steps) && ElectionsMeet(n) && j < |states| && k < |states| && a < n && b < n
    ensures Serves(n, states, j, a) && Serves(n, states, k, b)
    ensures var s, t := states[j].servers[a], states[k].servers[b];
            s.role == Leader && t.role == Leader && s.currentTerm == t.currentTerm ==> a == b
  {
    var hs := RunExplained(n, states, steps, |steps|);
    ServerAt(n, states, steps, hs, j, a);
    ServerAt(n, states, steps, hs, k, b);
    assert Grows(hs[j], hs[|steps|]) && Grows(hs[k], hs[|steps|]);
  }

  /** Log Matching, between any servers at any times, and the order of terms within a log. */
  lemma LogMatching(n: nat, states: seq<Cluster>, steps: seq<Step>, j: nat, a: nat, k: nat, b: nat, i: nat)
    requires IsRun(n, states, steps) && ElectionsMeet(n) && j < |states| && k < |states| && a < n && b < n
    ensures Serves(n, states, j, a) && Serves(n, states, k, b)
    ensures var x, y := states[j].servers[a].log, states[k].servers[b].log;
            Ordered(x) && (i < |x| && i < |y| && x[i].term == y[i].term ==> x[..i + 1] == y[..i + 1])
  {
    var hs := RunExplained(n, states, steps, |steps|);
    ServerAt(n, states, steps, hs, j, a);
    ServerAt(n, states, steps, hs, k, b);
    var x, y, h := states[j].servers[a].log, states[k].servers[b].log, hs[|steps|];
    TracedOrdered(hs[j], n, x);
    assert Grows(hs[j], h) && Grows(hs[k], h);
    TracedGrown(hs[j].logs, h.logs, x);
    TracedGrown(hs[k].logs, h.logs, y);
    if i < |x| && i < |y| && x[i].term == y[i].term { TermsMatch(h.logs, x, y, i); }
  }

  /** State Machine Safety: what any two servers ever count as committed is the same, index by index. */
  lemma StateMachineSafety(n: nat, states: seq<Cluster>, steps: seq<Step>, j: nat, a: nat, k: nat, b: nat, i: nat)
    requires IsRun(n, states, steps) && ElectionsMeet(n) && j < |states| && k < |states| && a < n && b < n
    ensures Serves(n, states, j, a) && Serves(n, states, k, b)
    ensures var s, t := states[j].servers[a], states[k].servers[b];
            s.commitIndex < |s.log| && t.commitIndex < |t.log|
            && (i <= s.commitIndex && i <= t.commitIndex ==> s.log[..i + 1] == t.log[..i + 1])
  {
    var hs := RunExplained(n, states, steps, |steps|);
    ServerAt(n, states, steps, hs, j, a);
    ServerAt(n, states, steps, hs, k, b);
    var s, t, h := states[j].servers[a], states[k].servers[b], hs[|steps|];
    assert Grows(hs[j], h) && Grows(hs[k], h);
    CoveredGrows(hs[j], h, n, s.log, s.log, s.commitIndex, s.currentTerm, s.currentTerm);
    CoveredGrows(hs[k], h, n, t.log, t.log, t.commitIndex, t.currentTerm, t.currentTerm);
    ServerAt(n, states, steps, hs, |steps|, a);
    CoveredAgree(h, n, s.log, s.commitIndex, s.currentTerm, t.log, t.commitIndex, t.currentTerm);
    if i <= s.commitIndex && i <= t.commitIndex {
      AgreeShorter(s.log, t.log, if s.commitIndex <= t.commitIndex then s.commitIndex else t.commitIndex, i);
    }
  }

  /** Leader Completeness: what a server counts as committed is in the log of every leader of a
      later term, whenever that leader is observed, and of a leader of the same term from then on. */
  lemma LeaderCompleteness(n: nat, states: seq<Cluster>, steps: seq<Step>, j: nat, a: nat, k: nat, b: nat)
    requires IsRun(n, states, steps) && ElectionsMeet(n) && j < |states| && k < |states| && a < n && b < n
    ensures Serves(n, states, j, a) && Serves(n, states, k, b)
    ensures var s, t := states[j].servers[a], states[k].servers[b];
            t.role == Leader && (t.currentTerm > s.currentTerm || (t.currentTerm == s.currentTerm && j <= k)) ==>
              s.commitIndex < |s.log| && s.commitIndex < |t.log|
              && s.log[..s.commitIndex + 1] == t.log[..s.commitIndex + 1]
  {
    var hs := RunExplained(n, states, steps, |steps|);
    ServerAt(n, states, steps, hs, j, a);
    ServerAt(n, states, steps, hs, k, b);
    ServerAt(n, states, steps, hs, |steps|, a);
    var s, t := states[j].servers[a], states[k].servers[b];
    if t.role == Leader && t.currentTerm > s.currentTerm {
      assert Grows(hs[j], hs[|steps|]) && Grows(hs[k], hs[|steps|]);
      CoveredGrows(hs[j], hs[|steps|], n, s.log, s.log, s.commitIndex, s.currentTerm, s.currentTerm);
      CoveredInLeader(hs[|steps|], n, s.log, s.commitIndex, s.currentTerm, t.currentTerm);
      assert ElectionOk(hs[k], n, t.currentTerm);
      AgreeGrown(s.log, hs[k].elections[t.currentTerm].log, t.log, s.commitIndex);
    } else if t.role == Leader && t.currentTerm == s.currentTerm && j <= k {
      assert Grows(hs[j], hs[k]);
      CoveredGrows(hs[j], hs[k], n, s.log, s.log, s.commitIndex, s.currentTerm, s.currentTerm);
      CoveredInLeader(hs[k], n, s.log, s.commitIndex, s.currentTerm, t.currentTerm);
    }
  }

  lemma CoveredInLeader(h: History, n: nat, log: seq<Entry>, i: nat, bound: nat, t: nat)
    requires HistoryOk(h, n) && i < |log| && log[0] == Sentinel(0) && Covered(h, log, i, bound)
    requires t in h.elections && bound <= t
    ensures Agree(log, h.logs[t], i)
    ensures bound < t ==> Agree(log, h.elections[t].log, i)
  {
    assert ElectionOk(h, n, t) && CandidacyOk(h, Ballot(t, h.elections[t].leader));
    if i > 0 {
      var c :| c in h.commits && c.term <= bound && i <= c.index && c.term in h.logs && Agree(log, h.logs[c.term], i);
      if c.term < t { CommitInLog(h, n, c, t, i); }
    }
  }

  // ----- commit and replication indices -----

  /** The servers whose reply confirms that they hold `index` of this leader's term, and the leader. */
  function Confirmers(c: Cluster, i: nat, term: nat, index: nat): set<nat> {
    set p: nat | p < |c.servers| && (p == i || exists r :: r in c.replies && Confirms(r, Ack(p, term, index)))
  }

  /** Leader commit soundness: when a leader raises its commit index, more than half of the peers
      have confirmed, in its own term, every entry up to it; and the new entry is of that term. */
  lemma CommitIsConfirmed(n: nat, states: seq<Cluster>, steps: seq<Step>, k: nat, i: nat)
    requires IsRun(n, states, steps) && ElectionsMeet(n) && k < |steps| && i < n
    ensures Serves(n, states, k, i) && Serves(n, states, k + 1, i)
    ensures var s, t := states[k].servers[i], states[k + 1].servers[i];
            t.role == Leader && t.commitIndex > s.commitIndex ==>
              && t.commitIndex < |t.log| && t.log[t.commitIndex].term == t.currentTerm
              && Majority(n, Confirmers(states[k + 1], i, t.currentTerm, t.commitIndex))
  {
    var hs := RunExplained(n, states, steps, |steps|);
    ServerAt(n, states, steps, hs, k, i);
    ServerAt(n, states, steps, hs, k + 1, i);
    assert Taken(states, steps, k);
    if states[k + 1].servers[i].role == Leader && states[k + 1].servers[i].commitIndex > states[k].servers[i].commitIndex {
      RaisedByAppend(states[k], steps[k], i);
      StepConfirmed(states[k], hs[k], steps[k].reply);
    }
  }

  /** Only an acknowledged append raises the commit index of a leader. */
  lemma RaisedByAppend(c: Cluster, step: Step, i: nat)
    requires Shaped(c) && Enabled(c, step) && Safe(c, step) && i < |c.servers|
    requires var t := Apply(c, step).servers[i]; t.role == Leader && t.commitIndex > c.servers[i].commitIndex
    ensures step.FinishAppend? && step.reply.call.caller == i
  {
  }

  lemma StepConfirmed(c: Cluster, h: History, r: Reply)
    requires Inv(c, h) && Enabled(c, FinishAppend(r)) && Safe(c, FinishAppend(r))
    ensures var s, t := c.servers[r.call.caller], Apply(c, FinishAppend(r)).servers[r.call.caller];
            t.commitIndex > s.commitIndex ==>
              && t.commitIndex < |t.log| && t.log[t.commitIndex].term == t.currentTerm
              && Majority(|c.servers|, Confirmers(c, r.call.caller, t.currentTerm, t.commitIndex))
    ensures Apply(c, FinishAppend(r)).replies == c.replies && |Apply(c, FinishAppend(r)).servers| == |c.servers|
  {
    var s, a := c.servers[r.call.caller], r.call.append;
    assert ReplyOk(h, s.n, r);
    RaisedToMedian(s, r.call.callee, a, r.appended);
    if ReceiveAppend(s, r.call.callee, a, r.appended).commitIndex > s.commitIndex {
      MatchedOk(h, s.n, s, r.call.callee, a);
      HoldersConfirmed(c, h, Matched(s, r.call.callee, a));
    }
  }

  /** A leader commits by counting: up to the median, and only an entry of its own term. */
  lemma RaisedToMedian(s: Server, peer: nat, a: AppendArgs, r: AppendReply)
    requires WellFormed(s) && s.snapshotLastIndex == 0
    requires TakesAppendReply(s, peer, a, r) && r.success ==> MedianInLog(Matched(s, peer, a))
    ensures var t := ReceiveAppend(s, peer, a, r);
            t.commitIndex > s.commitIndex ==>
              && TakesAppendReply(s, peer, a, r) && r.success && t.log == s.log && t.currentTerm == s.currentTerm
              && t.commitIndex == Median(Matched(s, peer, a).matchIndex) < |s.log|
              && s.log[t.commitIndex].term == s.currentTerm
  {
  }

  lemma HoldersConfirmed(c: Cluster, h: History, s: Server)
    requires Inv(c, h) && ServerOk(h, s) && s.n == |c.servers| && s.role == Leader && MedianInLog(s)
    requires s.commitIndex < Median(s.matchIndex) && s.log[Median(s.matchIndex)].term == s.currentTerm
    ensures Majority(s.n, Confirmers(c, s.me, s.currentTerm, Median(s.matchIndex)))
  {
    var m := Median(s.matchIndex);
    MedianIsCommitted(h, s.n, s);
    forall p | p in Holders(h, s.n, s.currentTerm, m) ensures p in Confirmers(c, s.me, s.currentTerm, m) {
      assert AckBacked(c.replies, h, Ack(p, s.currentTerm, m));
    }
    LargerMajority(s.n, Holders(h, s.n, s.currentTerm, m), Confirmers(c, s.me, s.currentTerm, m));
  }

  /** Within a leadership neither `matchIndex` nor `commitIndex` ever falls; and no step but a
      restart lowers any server's commit index. */
  lemma IndicesNeverFall(n: nat, states: seq<Cluster>, steps: seq<Step>, k: nat, i: nat)
    requires IsRun(n, states, steps) && ElectionsMeet(n) && k < |steps| && i < n
    ensures Serves(n, states, k, i) && Serves(n, states, k + 1, i)
    ensures var s, t := states[k].servers[i], states[k + 1].servers[i];
            && (steps[k] != Restart(i) ==> s.commitIndex <= t.commitIndex)
            && (s.role == Leader && t.role == Leader && s.currentTerm == t.currentTerm ==>
                  s.commitIndex <= t.commitIndex
                  && |s.matchIndex| == |t.matchIndex| == n
                  && forall p :: 0 <= p < n ==> s.matchIndex[p] <= t.matchIndex[p])
  {
    var hs := RunExplained(n, states, steps, |steps|);
    ServerAt(n, states, steps, hs, k, i);
    ServerAt(n, states, steps, hs, k + 1, i);
    assert Taken(states, steps, k);
    if steps[k] != Restart(i) { StepNeverLowers(states[k], hs[k], steps[k], i); }
  }

  predicate NotLowered(s: Server, t: Server) {
    && s.commitIndex <= t.commitIndex
    && (s.role == Leader && t.role == Leader && s.currentTerm == t.currentTerm ==>
          |s.matchIndex| == |t.matchIndex| && forall p :: 0 <= p < |s.matchIndex| ==> s.matchIndex[p] <= t.matchIndex[p])
  }

  lemma HandlingNeverLowers(h: History, n: nat, s: Server, caller: nat, a: AppendArgs)
    requires HistoryOk(h, n) && WellFormed(s) && LogOk(h, s) && AppendCallOk(h, n, caller, s.me, a)
    ensures NotLowered(s, AppendEntries(s, a).0)
  {
    AppendShape(s, a);
    if Accepts(s, a) { FollowerCommitOk(h, n, s, caller, a); }
  }

  lemma ReceivingNeverLowers(h: History, n: nat, s: Server, r: Reply)
    requires HistoryOk(h, n) && ServerOk(h, s) && s.n == n && ReplyOk(h, n, r) && r.Appended? && r.call.caller == s.me
    requires TakesAppendReply(s, r.call.callee, r.call.append, r.appended) && r.appended.success ==>
               MedianInLog(Matched(s, r.call.callee, r.call.append))
    ensures NotLowered(s, ReceiveAppend(s, r.call.callee, r.call.append, r.appended))
  {
    if TakesAppendReply(s, r.call.callee, r.call.append, r.appended) && r.appended.success {
      MatchGrows(h, n, s, r.call.callee, r.call.append);
      MatchedOk(h, n, s, r.call.callee, r.call.append);
    }
  }

  lemma StepNeverLowers(c: Cluster, h: History, step: Step, i: nat)
    requires Inv(c, h) && Enabled(c, step) && Safe(c, step) && i < |c.servers| && step != Restart(i)
    ensures NotLowered(c.servers[i], Apply(c, step).servers[i])
  {
    var s := c.servers[i];
    match step
    case HandleAppend(call) =>
      assert CallOk(h, s.n, call);
      if call.callee == i { HandlingNeverLowers(h, s.n, s, call.caller, call.append); }
    case FinishAppend(r) =>
      assert ReplyOk(h, s.n, r);
      if r.call.caller == i { ReceivingNeverLowers(h, s.n, s, r); }
    case Submit(j, _) =>
      if j == i && s.role == Leader { assert PeerOk(h, s, i); }
    case _ => OthersNeverLower(c, step, i);
  }

  lemma OthersNeverLower(c: Cluster, step: Step, i: nat)
    requires Shaped(c) && Enabled(c, step) && Safe(c, step) && i < |c.servers| && step != Restart(i)
    requires !step.HandleAppend? && !step.FinishAppend? && !step.Submit?
    ensures NotLowered(c.servers[i], Apply(c, step).servers[i])
  {
  }

  /** The follower's bound by its own log length is Figure 2's bound by the last new entry: an
      accepted message never commits beyond what it carried. */
  lemma FollowerCommitBound(n: nat, states: seq<Cluster>, steps: seq<Step>, k: nat)
    requires IsRun(n, states, steps) && ElectionsMeet(n) && k < |steps| && steps[k].HandleAppend?
    ensures steps[k].call.AppendCall? && steps[k].call.callee < n
    ensures Serves(n, states, k, steps[k].call.callee) && Serves(n, states, k + 1, steps[k].call.callee)
    ensures var a := steps[k].call.append;
            var s, t := states[k].servers[steps[k].call.callee], states[k + 1].servers[steps[k].call.callee];
            WellFormed(s) && (AppendEntries(s, a).1.success ==>
              && a.leaderCommit <= a.prevLogIndex + |a.entries| < |t.log|
              && t.commitIndex == Max(s.commitIndex, Min(a.leaderCommit, a.prevLogIndex + |a.entries|)))
  {
    var hs := RunExplained(n, states, steps, |steps|);
    var call := steps[k].call;
    assert Taken(states, steps, k) && Inv(states[k], hs[k]) && CallOk(hs[k], n, call);
    ServerAt(n, states, steps, hs, k, call.callee);
    ServerAt(n, states, steps, hs, k + 1, call.callee);
    AcceptedCommit(hs[k], n, states[k].servers[call.callee], call.caller, call.append);
  }

  lemma AcceptedCommit(h: History, n: nat, s: Server, caller: nat, a: AppendArgs)
    requires HistoryOk(h, n) && WellFormed(s) && LogOk(h, s) && AppendCallOk(h, n, caller, s.me, a)
    ensures var t := AppendEntries(s, a).0;
            AppendEntries(s, a).1.success ==>
              && a.leaderCommit <= a.prevLogIndex + |a.entries| < |t.log|
              && t.commitIndex == Max(s.commitIndex, Min(a.leaderCommit, a.prevLogIndex + |a.entries|))
  {
    AppendShape(s, a);
    if Accepts(s, a) {
      FollowerCommitOk(h, n, s, caller, a);
      AcceptedLogOk(h, n, s, caller, a);
    }
  }
}
