/** Consensus is never out of reach: from every reachable state of two or more servers, a new command can be
    committed at the same index on every one of them. A single server never leads. */
module RaftProgress {
  import opened RaftServer
  import opened RaftCluster
  import opened RaftInvariant
  import opened RaftElections
  import opened RaftSafety
  import opened RaftOutcomes
  import opened RaftCandidates
  import B = RaftBacktracking
  import RaftCommits
  import RaftValidity
  import opened Quorum

  /** The leader's log does not change, nor what it knows of peers other than `p`. */
  predicate StillLeads(c: Cluster, c': Cluster, x: nat, p: nat)
    requires x < |c.servers| == |c'.servers|
  {
    var l, l' := c.servers[x], c'.servers[x];
    && l'.log == l.log && l'.currentTerm == l.currentTerm && l'.role == l.role
    && |l'.matchIndex| == |l.matchIndex| && |l'.nextIndex| == |l.nextIndex|
    && forall q {:trigger l'.matchIndex[q]} {:trigger l'.nextIndex[q]} :: 0 <= q < |l.matchIndex| && q < |l.nextIndex| && q != p ==>
         l'.matchIndex[q] == l.matchIndex[q] && l'.nextIndex[q] == l.nextIndex[q]
  }

  /** The servers besides `x` and `p` are as they were. */
  predicate OnlyBetween(c: Cluster, c': Cluster, x: nat, p: nat) {
    && |c'.servers| == |c.servers| && c'.epochs == c.epochs
    && forall i {:trigger c'.servers[i]} :: 0 <= i < |c.servers| && i != x && i != p ==> c'.servers[i] == c.servers[i]
  }

  lemma ProbingNow(n: nat, r: Run, x: nat, p: nat)
    requires Runs(n, r) && ElectionsMeet(n) && Leading(n, Last(n, r), x) && p < n && p != x
    ensures B.Probing(Last(n, r).servers[x], p, Last(n, r).servers[p])
  {
    B.LogsAreFull(n, r.states, r.steps, |r.steps|, x);
    B.LogsAreFull(n, r.states, r.steps, |r.steps|, p);
    assert RaftCandidates.Follows(Last(n, r), x, p);
  }

  /** A heartbeat to `p`, its answer, and the leader's use of it. */
  lemma Exchange(n: nat, r: Run, x: nat, p: nat) returns (r': Run)
    requires Runs(n, r) && ElectionsMeet(n) && Leading(n, Last(n, r), x) && p < n && p != x
    requires B.Probing(Last(n, r).servers[x], p, Last(n, r).servers[p])
    ensures Runs(n, r') && Continues(r, r') && OnlyBetween(Last(n, r), Last(n, r'), x, p) && Sound(n, Last(n, r'))
    ensures var l, f := Last(n, r).servers[x], Last(n, r).servers[p];
            var a := EntriesFor(l, p);
            var (f', reply) := AppendEntries(f, a);
            && Last(n, r').servers[p] == f'
            && (TakesAppendReply(l, p, a, reply) && reply.success ==> MedianInLog(Matched(l, p, a)))
            && Last(n, r').servers[x] == ReceiveAppend(l, p, a, reply)
  {
    var c := Last(n, r);
    var l, f := c.servers[x], c.servers[p];
    var a := EntriesFor(l, p);
    var call := AppendCall(x, c.epochs[x], p, a);
    var r1 := OneMore(n, r, Heartbeat(x));
    var c1 := Last(n, r1);
    assert call in AppendCalls(l, c.epochs[x]);
    var r2 := OneMore(n, r1, HandleAppend(call));
    var c2 := Last(n, r2);
    var reply := Appended(call, AppendEntries(f, a).1);
    assert reply in c2.replies && c2.servers[x] == l;
    r' := OneMore(n, r2, FinishAppend(reply));
  }

  /** A follower's log reaches the end of the leader's, with its term there. */
  predicate Reaches(l: Server, f: Server) {
    0 < |l.log| <= |f.log| && f.log[|l.log| - 1].term == l.log[|l.log| - 1].term
  }

  /** The leader knows that the peer has its whole log. */
  predicate Confirmed(l: Server, p: nat) {
    p < |l.matchIndex| && p < |l.nextIndex| && l.matchIndex[p] + 1 == l.nextIndex[p] == |l.log|
  }

  lemma MergeReaches(log: seq<Entry>, at: nat, entries: seq<Entry>, term: nat)
    requires 1 <= at <= |log|
    requires if entries == [] then log[at - 1].term == term else entries[|entries| - 1].term == term
    ensures var m := Merge(log, at, entries); |m| >= at + |entries| && m[at + |entries| - 1].term == term
  {
    var d := MergeOutcome(log, at, entries);
    if d == |entries| && d > 0 { assert Matches(log, at, entries, d - 1); }
  }

  /** The message is the leader's log from some index to its end. */
  predicate TailOf(l: Server, a: AppendArgs) {
    && l.log != [] && a.prevLogIndex + 1 + |a.entries| == |l.log| && a.prevLogTerm == l.log[a.prevLogIndex].term
    && forall j :: 0 <= j < |a.entries| ==> a.entries[j] == l.log[a.prevLogIndex + 1 + j]
  }

  lemma TailReaches(l: Server, a: AppendArgs, log: seq<Entry>)
    requires TailOf(l, a) && a.prevLogIndex < |log| && log[a.prevLogIndex].term == a.prevLogTerm
    ensures var m := Merge(log, a.prevLogIndex + 1, a.entries); |m| >= |l.log| && m[|l.log| - 1].term == l.log[|l.log| - 1].term
  {
    MergeReaches(log, a.prevLogIndex + 1, a.entries, l.log[|l.log| - 1].term);
  }

  lemma FollowerOutcome(l: Server, a: AppendArgs, f: Server)
    requires TailOf(l, a) && WellFormed(f) && f.snapshotLastIndex == 0 && f.currentTerm == a.term == l.currentTerm
    ensures var (f', reply) := AppendEntries(f, a);
            f'.currentTerm == l.currentTerm && f'.role == Follower && reply.term == l.currentTerm && (reply.success ==> Reaches(l, f'))
  {
    AppendOutcome(f, a);
    if AppendEntries(f, a).1.success { TailReaches(l, a, f.log); }
  }

  /** The leader has changed only its commit index and its indices for the peer. */
  predicate Moved(l: Server, l': Server, p: nat) {
    && l' == l.(nextIndex := l'.nextIndex, matchIndex := l'.matchIndex, commitIndex := l'.commitIndex)
    && |l'.nextIndex| == |l'.matchIndex| == |l.nextIndex| == |l.matchIndex| && p < |l.nextIndex|
    && forall q :: 0 <= q < |l.nextIndex| && q != p ==> l'.nextIndex[q] == l.nextIndex[q] && l'.matchIndex[q] == l.matchIndex[q]
  }

  lemma LeaderOutcome(l: Server, p: nat, reply: AppendReply)
    requires WellFormed(l) && l.role == Leader && p < l.n && l.snapshotLastIndex == 0 && 1 <= l.nextIndex[p] <= |l.log|
    requires reply.term == l.currentTerm
    requires TakesAppendReply(l, p, EntriesFor(l, p), reply) && reply.success ==> MedianInLog(Matched(l, p, EntriesFor(l, p)))
    ensures var l' := ReceiveAppend(l, p, EntriesFor(l, p), reply);
            Moved(l, l', p) && if reply.success then Confirmed(l', p) else l'.nextIndex[p] == reply.failedFirstIndex
  {
    EntriesOutcome(l, p);
    ReplyOutcome(l, p, EntriesFor(l, p), reply);
  }

  /** An exchange that moves only the leader's indices for the peer leaves it leading. */
  lemma LeadsStill(n: nat, c: Cluster, c': Cluster, x: nat, p: nat)
    requires Leading(n, c, x) && Sound(n, c') && p < n && p != x && OnlyBetween(c, c', x, p)
    requires Moved(c.servers[x], c'.servers[x], p) && RaftCandidates.Follows(c', x, p)
    ensures Leading(n, c', x) && StillLeads(c, c', x, p)
  {
    forall q | 0 <= q < n && q != x ensures RaftCandidates.Follows(c', x, q) { assert RaftCandidates.Follows(c, x, q); }
  }

  /** The peer has the leader's whole log and it knows, or the leader has gone further back. */
  predicate Advanced(l: Server, l': Server, p: nat, f': Server, success: bool)
    requires p < |l.nextIndex| && p < |l'.nextIndex|
  {
    if success then Confirmed(l', p) && Reaches(l', f') else l'.nextIndex[p] < l.nextIndex[p]
  }

  lemma ServersOutcome(l: Server, p: nat, f: Server)
    requires B.Probing(l, p, f) && f.currentTerm == l.currentTerm
    requires var a, reply := EntriesFor(l, p), AppendEntries(f, EntriesFor(l, p)).1;
             TakesAppendReply(l, p, a, reply) && reply.success ==> MedianInLog(Matched(l, p, a))
    ensures var (f', reply) := AppendEntries(f, EntriesFor(l, p));
            var l' := ReceiveAppend(l, p, EntriesFor(l, p), reply);
            && f'.currentTerm == l.currentTerm && f'.role == Follower && Moved(l, l', p)
            && Advanced(l, l', p, f', reply.success)
  {
    var a := EntriesFor(l, p);
    SendsTail(l, p);
    FollowerOutcome(l, a, f);
    RefusedBelow(l, p, f);
    LeaderOutcome(l, p, AppendEntries(f, a).1);
  }

  lemma SendsTail(l: Server, p: nat)
    requires WellFormed(l) && p < l.n && l.snapshotLastIndex == 0 && 1 <= l.nextIndex[p] <= |l.log|
    ensures TailOf(l, EntriesFor(l, p)) && EntriesFor(l, p).term == l.currentTerm
  {
    EntriesOutcome(l, p);
  }

  lemma RefusedBelow(l: Server, p: nat, f: Server)
    requires B.Probing(l, p, f)
    ensures var reply := AppendEntries(f, EntriesFor(l, p)).1; !reply.success ==> reply.failedFirstIndex < l.nextIndex[p]
  {
    if !AppendEntries(f, EntriesFor(l, p)).1.success { B.RefusalLeavesLess(f, EntriesFor(l, p)); }
  }

  /** One exchange between a leader and a follower of its term: the follower gets the whole log, or the leader
      goes further back. */
  lemma ExchangeOutcome(n: nat, r: Run, x: nat, p: nat) returns (r': Run)
    requires Runs(n, r) && ElectionsMeet(n) && Leading(n, Last(n, r), x) && p < n && p != x
    ensures Runs(n, r') && Continues(r, r') && Leading(n, Last(n, r'), x)
    ensures OnlyBetween(Last(n, r), Last(n, r'), x, p) && StillLeads(Last(n, r), Last(n, r'), x, p)
    ensures var l, f := Last(n, r).servers[x], Last(n, r).servers[p];
            && B.Probing(l, p, f) && Last(n, r').servers[p] == AppendEntries(f, EntriesFor(l, p)).0
            && Advanced(l, Last(n, r').servers[x], p, Last(n, r').servers[p], AppendEntries(f, EntriesFor(l, p)).1.success)
  {
    var c := Last(n, r);
    ProbingNow(n, r, x, p);
    assert RaftCandidates.Follows(c, x, p);
    r' := Exchange(n, r, x, p);
    ServersOutcome(c.servers[x], p, c.servers[p]);
    LeadsStill(n, c, Last(n, r'), x, p);
  }

  /** The leader brings one peer up to date, however many refusals it takes. */
  lemma {:induction false} PeerCatchesUp(n: nat, r: Run, x: nat, p: nat) returns (r': Run)
    requires Runs(n, r) && ElectionsMeet(n) && Leading(n, Last(n, r), x) && p < n && p != x
    ensures Runs(n, r') && Continues(r, r') && Leading(n, Last(n, r'), x)
    ensures OnlyBetween(Last(n, r), Last(n, r'), x, p) && StillLeads(Last(n, r), Last(n, r'), x, p)
    ensures Confirmed(Last(n, r').servers[x], p) && Reaches(Last(n, r').servers[x], Last(n, r').servers[p])
    decreases (ProbingNow(n, r, x, p); Last(n, r).servers[x].nextIndex[p])
  {
    r' := ExchangeOutcome(n, r, x, p);
    var c := Last(n, r);
    if !AppendEntries(c.servers[p], EntriesFor(c.servers[x], p)).1.success { r' := PeerCatchesUp(n, r', x, p); }
  }

  /** The peers below `k` have the leader's whole log, and it knows. */
  predicate CaughtUp(c: Cluster, x: nat, k: nat)
    requires x < |c.servers| && k <= |c.servers|
  {
    forall p {:trigger Confirmed(c.servers[x], p)} :: 0 <= p < k && p != x ==>
      Confirmed(c.servers[x], p) && Reaches(c.servers[x], c.servers[p])
  }

  lemma StaysCaughtUp(n: nat, c: Cluster, c': Cluster, x: nat, k: nat, p: nat)
    requires Sound(n, c) && Sound(n, c') && x < n && k <= n && p < n && CaughtUp(c, x, k)
    requires OnlyBetween(c, c', x, p) && StillLeads(c, c', x, p)
    requires p != x && Confirmed(c'.servers[x], p) && Reaches(c'.servers[x], c'.servers[p])
    ensures CaughtUp(c', x, k) && (p == k ==> CaughtUp(c', x, k + 1))
  {
    forall q | 0 <= q < n && q != x && (q < k || q == p) ensures Confirmed(c'.servers[x], q) && Reaches(c'.servers[x], c'.servers[q]) {
      if q != p { assert Confirmed(c.servers[x], q); }
    }
  }

  predicate SameLeader(c: Cluster, c': Cluster, x: nat) {
    x < |c.servers| == |c'.servers| && c'.servers[x].log == c.servers[x].log && c'.servers[x].currentTerm == c.servers[x].currentTerm
  }

  lemma {:induction false} AllCatchUp(n: nat, r: Run, x: nat, k: nat) returns (r': Run)
    requires Runs(n, r) && ElectionsMeet(n) && Leading(n, Last(n, r), x) && k <= n && CaughtUp(Last(n, r), x, k)
    ensures Runs(n, r') && Continues(r, r') && Leading(n, Last(n, r'), x) && CaughtUp(Last(n, r'), x, n)
    ensures SameLeader(Last(n, r), Last(n, r'), x)
    decreases n - k
  {
    r' := r;
    if k < n {
      if k != x {
        r' := PeerCatchesUp(n, r, x, k);
        StaysCaughtUp(n, Last(n, r), Last(n, r'), x, k, k);
      }
      r' := AllCatchUp(n, r', x, k + 1);
    }
  }

  /** With everybody caught up, the leader has committed its last entry. */
  lemma LeaderHasCommitted(n: nat, r: Run, x: nat)
    requires Runs(n, r) && ElectionsMeet(n) && Leading(n, Last(n, r), x) && CaughtUp(Last(n, r), x, n)
    requires var l := Last(n, r).servers[x]; l.log[|l.log| - 1].term == l.currentTerm
    ensures var l := Last(n, r).servers[x]; l.commitIndex == |l.log| - 1
  {
    var c := Last(n, r);
    var l := c.servers[x];
    var last := |l.log| - 1;
    var h := Explained(n, r);
    assert ServerOk(h, l) && PeerOk(h, l, x);
    forall p | 0 <= p < n ensures p in AtLeast(l.matchIndex, last) {
      if p != x { assert Confirmed(l, p); }
    }
    AllAreMany(n, AtLeast(l.matchIndex, last));
    RaftCommits.CommittedIffMajority(n, r.states, r.steps, |r.steps|, x, last);
  }

  /** A caught-up peer learns of the commit from the next heartbeat. */
  lemma PeerCommits(n: nat, r: Run, x: nat, p: nat) returns (r': Run)
    requires Runs(n, r) && ElectionsMeet(n) && Leading(n, Last(n, r), x) && p < n && p != x && CaughtUp(Last(n, r), x, n)
    requires var l := Last(n, r).servers[x]; l.commitIndex == |l.log| - 1
    ensures Runs(n, r') && Continues(r, r') && Leading(n, Last(n, r'), x)
    ensures OnlyBetween(Last(n, r), Last(n, r'), x, p) && StillLeads(Last(n, r), Last(n, r'), x, p)
    ensures Confirmed(Last(n, r').servers[x], p) && Reaches(Last(n, r').servers[x], Last(n, r').servers[p])
    ensures Last(n, r').servers[p].commitIndex >= |Last(n, r).servers[x].log| - 1
  {
    var c := Last(n, r);
    assert Confirmed(c.servers[x], p) && RaftCandidates.Follows(c, x, p);
    r' := ExchangeOutcome(n, r, x, p);
    HeartbeatCommits(c.servers[x], p, c.servers[p]);
  }

  lemma HeartbeatCommits(l: Server, p: nat, f: Server)
    requires B.Probing(l, p, f) && f.currentTerm == l.currentTerm && Confirmed(l, p) && Reaches(l, f)
    requires l.commitIndex == |l.log| - 1
    ensures var (f', reply) := AppendEntries(f, EntriesFor(l, p)); reply.success && f'.commitIndex >= |l.log| - 1
  {
    EntriesOutcome(l, p);
    AppendOutcome(f, EntriesFor(l, p));
  }

  /** The peers below `k` have committed the leader's whole log. */
  predicate Committed(c: Cluster, x: nat, k: nat)
    requires x < |c.servers| && k <= |c.servers|
  {
    forall p {:trigger c.servers[p]} :: 0 <= p < k && p != x ==> c.servers[p].commitIndex + 1 >= |c.servers[x].log|
  }

  lemma {:induction false} AllCommit(n: nat, r: Run, x: nat, k: nat) returns (r': Run)
    requires Runs(n, r) && ElectionsMeet(n) && Leading(n, Last(n, r), x) && k <= n
    requires CaughtUp(Last(n, r), x, n) && Committed(Last(n, r), x, k)
    requires var l := Last(n, r).servers[x]; l.log[|l.log| - 1].term == l.currentTerm
    ensures Runs(n, r') && Continues(r, r') && Leading(n, Last(n, r'), x)
    ensures CaughtUp(Last(n, r'), x, n) && Committed(Last(n, r'), x, n) && SameLeader(Last(n, r), Last(n, r'), x)
    ensures Last(n, r').servers[x].commitIndex + 1 == |Last(n, r').servers[x].log|
    decreases n - k
  {
    r' := r;
    LeaderHasCommitted(n, r, x);
    if k < n {
      if k != x {
        r' := PeerCommits(n, r, x, k);
        StaysCaughtUp(n, Last(n, r), Last(n, r'), x, n, k);
      }
      r' := AllCommit(n, r', x, k + 1);
    }
  }

  lemma Submitted(n: nat, r: Run, x: nat, command: Command) returns (r': Run)
    requires Runs(n, r) && ElectionsMeet(n) && Leading(n, Last(n, r), x)
    ensures Runs(n, r') && Continues(r, r') && Leading(n, Last(n, r'), x)
    ensures var l := Last(n, r').servers[x]; l.log == Last(n, r).servers[x].log + [Entry(l.currentTerm, command)]
  {
    var c := Last(n, r);
    r' := OneMore(n, r, Submit(x, command));
    StartOutcome(c.servers[x], command);
    var c' := Last(n, r');
    forall q | 0 <= q < n && q != x ensures RaftCandidates.Follows(c', x, q) { assert RaftCandidates.Follows(c, x, q); }
  }

  /** Every server has committed the command at the index. */
  predicate CommittedAt(c: Cluster, index: nat, command: Command) {
    index >= 1 && forall p {:trigger c.servers[p]} :: 0 <= p < |c.servers| ==>
      index <= c.servers[p].commitIndex && index < |c.servers[p].log| && c.servers[p].log[index].command == command
  }

  /** The second run goes on from the first, and commits the command. */
  predicate Commits(n: nat, r: Run, r': Run, index: nat, command: Command) {
    Runs(n, r') && Continues(r, r') && |Last(n, r').servers| == n && CommittedAt(Last(n, r'), index, command)
  }

  /** From every reachable state a new command can be committed, at one index on every server, after whatever
      crashes, partitions and competing leaders came before. */
  lemma CommandCanCommit(n: nat, r: Run, command: Command) returns (r': Run, index: nat)
    requires Runs(n, r) && ElectionsMeet(n) && n >= 2
    ensures Commits(n, r, r', index, command)
  {
    var x;
    r', x := ElectionCanSucceed(n, r);
    SoundEnd(n, r');
    r' := Submitted(n, r', x, command);
    r' := AllCatchUp(n, r', x, 0);
    r' := AllCommit(n, r', x, 0);
    index := |Last(n, r').servers[x].log| - 1;
    AgreedAt(n, r', x, command);
  }

  lemma AgreedAt(n: nat, r: Run, x: nat, command: Command)
    requires Runs(n, r) && ElectionsMeet(n) && Leading(n, Last(n, r), x) && CaughtUp(Last(n, r), x, n) && Committed(Last(n, r), x, n)
    requires var l := Last(n, r).servers[x]; l.commitIndex + 1 == |l.log| > 1 && l.log[|l.log| - 1].command == command
    ensures CommittedAt(Last(n, r), |Last(n, r).servers[x].log| - 1, command)
  {
    var c := Last(n, r);
    var l := c.servers[x];
    var last := |l.log| - 1;
    forall p | 0 <= p < n
      ensures last <= c.servers[p].commitIndex && last < |c.servers[p].log| && c.servers[p].log[last].command == command
    {
      if p != x {
        assert Confirmed(l, p);
        LogMatching(n, r.states, r.steps, |r.steps|, x, |r.steps|, p, last);
        assert l.log[last] == l.log[..last + 1][last] && c.servers[p].log[last] == c.servers[p].log[..last + 1][last];
      }
    }
  }

  /** A server on its own never leads: it counts votes only when a reply comes. */
  lemma LoneServerNeverLeads(r: Run, k: nat)
    requires Runs(1, r) && k < |r.states|
    ensures |r.states[k].servers| == 1 && r.states[k].servers[0].role != Leader
  {
    var hs := RunExplained(1, r.states, r.steps, |r.steps|);
    RaftCommits.RunCommits(1, r.states, r.steps, hs, k, 0);
    assert Inv(r.states[k], hs[k]);
  }

  /** So no entry ever gets into its log. */
  lemma LoneLogIsEmpty(r: Run)
    requires Runs(1, r)
    ensures |Last(1, r).servers| == 1 && |Last(1, r).servers[0].log| <= 1
  {
    var c := Last(1, r);
    LoneServerNeverLeads(r, |r.steps|);
    if |c.servers[0].log| > 1 {
      var m := RaftValidity.Validity(1, r.states, r.steps, |r.steps|, 0, 1);
      LoneServerNeverLeads(r, m);
      assert false;
    }
  }

  ghost predicate CanCommit(n: nat, r: Run, command: Command) {
    exists r', index :: Commits(n, r, r', index, command)
  }

  lemma LoneNeverCommits(r: Run, command: Command)
    requires Runs(1, r)
    ensures !CanCommit(1, r, command)
  {
    forall r', index ensures !Commits(1, r, r', index, command) {
      if Runs(1, r') { LoneLogIsEmpty(r'); }
    }
  }

  /** Commands can always be committed exactly if there is more than one server. */
  lemma CommitsIffSeveral(n: nat)
    requires ElectionsMeet(n) && n >= 1
    ensures (forall r, command {:trigger CanCommit(n, r, command)} :: Runs(n, r) ==> CanCommit(n, r, command)) <==> n >= 2
  {
    if n >= 2 {
      forall r, command | Runs(n, r) ensures CanCommit(n, r, command) {
        var r', index := CommandCanCommit(n, r, command);
      }
    } else {
      assert Runs(1, Run([Initial(1)], []));
      LoneNeverCommits(Run([Initial(1)], []), "x");
    }
  }
}
