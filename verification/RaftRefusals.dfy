/** How often one leader is turned back by one peer, over whole runs: stale, repeated and reordered
    replies included. */
module RaftRefusals {
  import opened RaftServer
  import opened RaftCluster
  import opened RaftInvariant
  import opened RaftElections
  import opened RaftReplication
  import opened RaftSafety
  import opened Quorum
  import B = RaftBacktracking

  // ----- the peer refuses with one log -----

  /** Step `m` is a refusal, by server `p`, of a message of term `t`. */
  predicate RefusesAt(states: seq<Cluster>, steps: seq<Step>, m: nat, p: nat, t: nat) {
    && m < |steps| && m < |states| && steps[m].HandleAppend? && steps[m].call.AppendCall? && steps[m].call.callee == p
    && steps[m].call.append.term == t && p < |states[m].servers|
    && var s := states[m].servers[p];
    && WellFormed(s) && s.currentTerm <= t && !AppendEntries(s, steps[m].call.append).1.success
  }

  /** A run with the histories that explain it; no step of it was out of range. */
  predicate Whole(n: nat, states: seq<Cluster>, steps: seq<Step>, hs: seq<History>) {
    && IsRun(n, states, steps) && Explains(n, states, steps, hs) && |hs| == |states|
    && forall i {:trigger Taken(states, steps, i)} :: 0 <= i < |steps| ==> Taken(states, steps, i)
  }

  lemma TermsNeverFall(c: Cluster, step: Step, i: nat)
    requires Shaped(c) && Enabled(c, step) && Safe(c, step) && i < |c.servers|
    ensures i < |Apply(c, step).servers| && c.servers[i].currentTerm <= Apply(c, step).servers[i].currentTerm
  {
  }

  lemma {:induction false} TermsGrow(n: nat, states: seq<Cluster>, steps: seq<Step>, hs: seq<History>, j: nat, k: nat, p: nat)
    requires Whole(n, states, steps, hs) && j <= k < |states| && p < n
    ensures Serves(n, states, j, p) && Serves(n, states, k, p)
    ensures states[j].servers[p].currentTerm <= states[k].servers[p].currentTerm
    decreases k
  {
    ServerAt(n, states, steps, hs, j, p);
    if j < k {
      TermsGrow(n, states, steps, hs, j, k - 1, p);
      assert Inv(states[k - 1], hs[k - 1]) && Taken(states, steps, k - 1);
      TermsNeverFall(states[k - 1], steps[k - 1], p);
    }
  }

  /** Within a term that another server leads, only an accepted message of that term changes a log. */
  lemma LogStays(c: Cluster, h: History, step: Step, p: nat, t: nat)
    requires Inv(c, h) && Enabled(c, step) && Safe(c, step) && p < |c.servers|
    requires t in h.elections && h.elections[t].leader != p
    requires c.servers[p].currentTerm == Apply(c, step).servers[p].currentTerm == t
    ensures Apply(c, step).servers[p].log == c.servers[p].log
            || (step.HandleAppend? && step.call.callee == p && step.call.append.term == t
                && AppendEntries(c.servers[p], step.call.append).1.success)
  {
    assert ServerOk(h, c.servers[p]);
    if step.HandleAppend? && step.call.callee == p { AcceptedInTerm(c.servers[p], step.call.append); }
  }

  lemma AcceptedInTerm(s: Server, a: AppendArgs)
    requires WellFormed(s) && s.snapshotLastIndex == 0
    ensures var (s', r) := AppendEntries(s, a);
            (s'.log == s.log || r.success) && (r.success ==> s'.currentTerm == a.term >= s.currentTerm)
  {
    AppendShape(s, a);
  }

  /** Who has accepted a message of the leader accepts every later one of the same term. */
  lemma AcceptsAgain(h: History, n: nat, s: Server, caller: nat, a: AppendArgs, last: nat)
    requires HistoryOk(h, n) && ServerOk(h, s) && s.n == n && AppendCallOk(h, n, caller, s.me, a) && s.currentTerm == a.term
    requires Ack(s.me, a.term, last) in h.acks && |h.elections[a.term].log| <= last + 1
    ensures AppendEntries(s, a).1.success
  {
    assert AckKept(h, s, Ack(s.me, a.term, last));
    if a.prevLogIndex >= |h.elections[a.term].log| { assert AckKept(h, s, Ack(s.me, a.term, a.prevLogIndex)); }
    AppendShape(s, a);
  }

  /** An accepted message leaves an acknowledgement that covers the log the leader won with. */
  lemma AcceptedLeavesAck(c: Cluster, h: History, call: Call, c': Cluster, h': History)
    requires Inv(c, h) && Inv(c', h') && Grows(h, h') && Enabled(c, HandleAppend(call)) && Safe(c, HandleAppend(call))
    requires c' == Apply(c, HandleAppend(call)) && AppendEntries(c.servers[call.callee], call.append).1.success
    ensures var a := call.append;
            && Ack(call.callee, a.term, a.prevLogIndex + |a.entries|) in h'.acks
            && a.term in h'.elections && |h'.elections[a.term].log| <= a.prevLogIndex + |a.entries| + 1
  {
    var r := Appended(call, AppendEntries(c.servers[call.callee], call.append).1);
    assert r in c'.replies && ReplyOk(h', |c'.servers|, r);
  }

  /** Server `p` has accepted no message of the leader of `t`. */
  ghost predicate Unaccepted(h: History, p: nat, t: nat) {
    t in h.elections && forall last: nat :: Ack(p, t, last) in h.acks ==> last + 1 < |h.elections[t].log|
  }

  lemma RefusedUnaccepted(c: Cluster, h: History, call: Call)
    requires Inv(c, h) && call in c.calls && call.AppendCall? && call.callee < |c.servers|
    requires WellFormed(c.servers[call.callee]) && c.servers[call.callee].currentTerm == call.append.term
    requires !AppendEntries(c.servers[call.callee], call.append).1.success
    ensures Unaccepted(h, call.callee, call.append.term)
  {
    var n, s, a := |c.servers|, c.servers[call.callee], call.append;
    assert CallOk(h, n, call) && ServerOk(h, s);
    forall last: nat | Ack(s.me, a.term, last) in h.acks ensures last + 1 < |h.elections[a.term].log| {
      if last + 1 >= |h.elections[a.term].log| { AcceptsAgain(h, n, s, call.caller, a, last); }
    }
  }

  lemma UnacceptedBefore(h: History, h': History, p: nat, t: nat)
    requires Grows(h, h') && Unaccepted(h', p, t) && t in h.elections
    ensures Unaccepted(h, p, t)
  {
  }

  /** A step after which nothing is accepted leaves the log alone. */
  lemma UnacceptedSame(c: Cluster, h: History, step: Step, c': Cluster, h': History, p: nat, t: nat)
    requires Inv(c, h) && Enabled(c, step) && Safe(c, step) && c' == Apply(c, step) && Inv(c', h') && Grows(h, h')
    requires p < |c.servers| == |c'.servers| && c.servers[p].currentTerm == c'.servers[p].currentTerm == t
    requires t in h.elections && h.elections[t].leader != p && Unaccepted(h', p, t)
    ensures c'.servers[p].log == c.servers[p].log
  {
    LogStays(c, h, step, p, t);
    if c'.servers[p].log != c.servers[p].log { AcceptedLeavesAck(c, h, step.call, c', h'); }
  }

  /** The facts about one step of a run. */
  lemma StepFacts(n: nat, states: seq<Cluster>, steps: seq<Step>, hs: seq<History>, i: nat)
    requires Whole(n, states, steps, hs) && i < |steps|
    ensures Inv(states[i], hs[i]) && Inv(states[i + 1], hs[i + 1]) && Taken(states, steps, i) && Grows(hs[i], hs[i + 1])
    ensures |states[i].servers| == |states[i + 1].servers| == n
  {
  }

  lemma GrowsTo(n: nat, states: seq<Cluster>, steps: seq<Step>, hs: seq<History>, i: nat, j: nat)
    requires Whole(n, states, steps, hs) && i <= j < |states|
    ensures Grows(hs[i], hs[j])
  {
  }

  /** A step before which and after which the peer is in term `t`, and has accepted nothing of it after. */
  lemma SameNext(n: nat, states: seq<Cluster>, steps: seq<Step>, hs: seq<History>, i: nat, p: nat, t: nat)
    requires Whole(n, states, steps, hs) && p < n && i < |steps| && Serves(n, states, i, p) && Serves(n, states, i + 1, p)
    requires states[i].servers[p].currentTerm == states[i + 1].servers[p].currentTerm == t
    requires t in hs[i].elections && hs[i].elections[t].leader != p && Unaccepted(hs[i + 1], p, t)
    ensures states[i + 1].servers[p].log == states[i].servers[p].log
  {
    StepFacts(n, states, steps, hs, i);
    UnacceptedSame(states[i], hs[i], steps[i], states[i + 1], hs[i + 1], p, t);
  }

  /** A refusal leaves the log alone and brings the peer into the leader's term. */
  lemma AfterRefusal(n: nat, states: seq<Cluster>, steps: seq<Step>, hs: seq<History>, m: nat, p: nat, t: nat)
    requires Whole(n, states, steps, hs) && p < n && RefusesAt(states, steps, m, p, t)
    ensures Serves(n, states, m, p) && Serves(n, states, m + 1, p)
    ensures states[m + 1].servers[p].log == states[m].servers[p].log && states[m + 1].servers[p].currentTerm == t
    ensures t in hs[m].elections && hs[m].elections[t].leader == steps[m].call.caller != p
  {
    StepFacts(n, states, steps, hs, m);
    assert CallOk(hs[m], n, steps[m].call);
    ServerAt(n, states, steps, hs, m, p);
    AppendShape(states[m].servers[p], steps[m].call.append);
  }

  /** From one refusal up to another of the same term the peer keeps its log. */
  lemma {:induction false} SameUntil(n: nat, states: seq<Cluster>, steps: seq<Step>, hs: seq<History>,
                                     m: nat, i: nat, p: nat, t: nat)
    requires Whole(n, states, steps, hs) && p < n && m < i < |states| && RefusesAt(states, steps, m, p, t)
    requires Serves(n, states, i, p) && states[i].servers[p].currentTerm == t && Unaccepted(hs[i], p, t)
    ensures Serves(n, states, m, p) && states[i].servers[p].log == states[m].servers[p].log
    decreases i
  {
    AfterRefusal(n, states, steps, hs, m, p, t);
    if i > m + 1 {
      TermsGrow(n, states, steps, hs, m + 1, i - 1, p);
      TermsGrow(n, states, steps, hs, i - 1, i, p);
      GrowsTo(n, states, steps, hs, m, i - 1);
      GrowsTo(n, states, steps, hs, i - 1, i);
      UnacceptedBefore(hs[i - 1], hs[i], p, t);
      SameUntil(n, states, steps, hs, m, i - 1, p, t);
      SameNext(n, states, steps, hs, i - 1, p, t);
    }
  }

  /** All refusals of messages of one term by one peer are against one log. */
  lemma OneRefusedLog(n: nat, states: seq<Cluster>, steps: seq<Step>, hs: seq<History>, m: nat, m': nat, p: nat, t: nat)
    requires Whole(n, states, steps, hs) && p < n
    requires RefusesAt(states, steps, m, p, t) && RefusesAt(states, steps, m', p, t)
    ensures Serves(n, states, m, p) && Serves(n, states, m', p)
    ensures states[m].servers[p].log == states[m'].servers[p].log
  {
    AfterRefusal(n, states, steps, hs, m, p, t);
    AfterRefusal(n, states, steps, hs, m', p, t);
    if m < m' {
      LaterRefusal(n, states, steps, hs, m, m', p, t);
    } else if m' < m {
      LaterRefusal(n, states, steps, hs, m', m, p, t);
    }
  }

  lemma LaterRefusal(n: nat, states: seq<Cluster>, steps: seq<Step>, hs: seq<History>, m: nat, m': nat, p: nat, t: nat)
    requires Whole(n, states, steps, hs) && p < n && m < m'
    requires RefusesAt(states, steps, m, p, t) && RefusesAt(states, steps, m', p, t)
    ensures Serves(n, states, m, p) && Serves(n, states, m', p)
    ensures states[m].servers[p].log == states[m'].servers[p].log
  {
    AfterRefusal(n, states, steps, hs, m, p, t);
    TermsGrow(n, states, steps, hs, m + 1, m', p);
    StepFacts(n, states, steps, hs, m');
    RefusedUnaccepted(states[m'], hs[m'], steps[m'].call);
    SameUntil(n, states, steps, hs, m, m', p, t);
  }

  // ----- what the leader takes -----

  /** Step `i` is leader `l` taking a reply of peer `p`. */
  predicate TakesAt(states: seq<Cluster>, steps: seq<Step>, i: nat, l: nat, p: nat) {
    && i < |steps| && i < |states| && steps[i].FinishAppend? && steps[i].reply.Appended? && steps[i].reply.call.AppendCall?
    && steps[i].reply.call.caller == l && steps[i].reply.call.callee == p && l < |states[i].servers|
    && WellFormed(states[i].servers[l])
    && TakesAppendReply(states[i].servers[l], p, steps[i].reply.call.append, steps[i].reply.appended)
  }

  predicate TakesRefusal(states: seq<Cluster>, steps: seq<Step>, i: nat, l: nat, p: nat) {
    TakesAt(states, steps, i, l, p) && !steps[i].reply.appended.success
  }

  /** How many refusals the leader takes from the peer from step `j` up to step `k`. */
  function Count(states: seq<Cluster>, steps: seq<Step>, j: nat, k: nat, l: nat, p: nat): nat
    requires j <= k
    decreases k
  {
    if j == k then 0
    else Count(states, steps, j, k - 1, l, p) + (if TakesRefusal(states, steps, k - 1, l, p) then 1 else 0)
  }

  /** Server `l` leads term `t` from state `j` to state `k`. */
  predicate Leads(n: nat, states: seq<Cluster>, j: nat, k: nat, l: nat, t: nat) {
    && j <= k < |states|
    && forall i {:trigger Serves(n, states, i, l)} :: j <= i <= k ==>
         Serves(n, states, i, l) && states[i].servers[l].role == Leader && states[i].servers[l].currentTerm == t
  }

  function Next(s: Server, p: nat): nat {
    if p < |s.nextIndex| then s.nextIndex[p] else 0
  }

  /** Every answer was given by some step. */
  lemma {:induction false} ReplyOrigin(n: nat, states: seq<Cluster>, steps: seq<Step>, hs: seq<History>, k: nat, r: Reply)
    returns (m: nat)
    requires Whole(n, states, steps, hs) && k < |states| && r in states[k].replies && r.Appended? && r.call.AppendCall?
    ensures m < k && steps[m] == HandleAppend(r.call) && r.call.callee < |states[m].servers|
    ensures WellFormed(states[m].servers[r.call.callee])
    ensures r.appended == AppendEntries(states[m].servers[r.call.callee], r.call.append).1
    decreases k
  {
    StepFacts(n, states, steps, hs, k - 1);
    if r in states[k - 1].replies { m := ReplyOrigin(n, states, steps, hs, k - 1, r); } else { m := k - 1; }
  }

  lemma ReplyTerm(s: Server, a: AppendArgs)
    requires WellFormed(s)
    ensures AppendEntries(s, a).1.term == s.currentTerm
  {
  }

  /** A refusal that is taken was made by the peer, in a term up to the leader's. */
  lemma RefusalOrigin(n: nat, states: seq<Cluster>, steps: seq<Step>, hs: seq<History>, i: nat, l: nat, p: nat, t: nat)
    returns (m: nat)
    requires Whole(n, states, steps, hs) && TakesRefusal(states, steps, i, l, p) && states[i].servers[l].currentTerm == t
    ensures m < i && RefusesAt(states, steps, m, p, t) && steps[m].call == steps[i].reply.call
    ensures steps[i].reply.appended == AppendEntries(states[m].servers[p], steps[m].call.append).1
  {
    StepFacts(n, states, steps, hs, i);
    m := ReplyOrigin(n, states, steps, hs, i, steps[i].reply);
    ReplyTerm(states[m].servers[p], steps[m].call.append);
  }

  /** While it leads, a server moves its position for a peer only when it takes a reply of that peer. */
  lemma LeaderMoves(c: Cluster, step: Step, l: nat, p: nat)
    requires Shaped(c) && Enabled(c, step) && Safe(c, step) && l < |c.servers| && WellFormed(c.servers[l]) && p < c.servers[l].n
    requires var s, s' := c.servers[l], Apply(c, step).servers[l];
             s.role == s'.role == Leader && s.currentTerm == s'.currentTerm
    ensures var s, s' := c.servers[l], Apply(c, step).servers[l];
            || Next(s', p) == Next(s, p)
            || (step.FinishAppend? && step.reply.call.caller == l && step.reply.call.callee == p
                && TakesAppendReply(s, p, step.reply.call.append, step.reply.appended))
    ensures var s, s' := c.servers[l], Apply(c, step).servers[l];
            step.FinishAppend? && step.reply.call.caller == l && step.reply.call.callee == p
            && TakesAppendReply(s, p, step.reply.call.append, step.reply.appended) && !step.reply.appended.success ==>
              Next(s, p) == step.reply.call.append.prevLogIndex + 1 && Next(s', p) == step.reply.appended.failedFirstIndex
  {
  }

  /** A refusal taken leaves the leader less of the peer's log to try. */
  lemma TakenLeavesLess(n: nat, states: seq<Cluster>, steps: seq<Step>, hs: seq<History>, i: nat, l: nat, p: nat, t: nat, m: nat)
    requires Whole(n, states, steps, hs) && ElectionsMeet(n) && p < n
    requires TakesRefusal(states, steps, i, l, p) && states[i].servers[l].currentTerm == t && RefusesAt(states, steps, m, p, t)
    ensures Serves(n, states, m, p)
    ensures var log, r := states[m].servers[p].log, steps[i].reply;
            B.Left(log, r.appended.failedFirstIndex) < B.Left(log, r.call.append.prevLogIndex + 1)
  {
    var o := RefusalOrigin(n, states, steps, hs, i, l, p, t);
    OneRefusedLog(n, states, steps, hs, m, o, p, t);
    B.LogsAreFull(n, states, steps, o, p);
    StepFacts(n, states, steps, hs, o);
    SentFromStart(states[o], hs[o], steps[o].call);
    B.RefusalLeavesLess(states[o].servers[p], steps[o].call.append);
  }

  /** Every log starts with the same sentinel. */
  lemma SentFromStart(c: Cluster, h: History, call: Call)
    requires Inv(c, h) && call in c.calls && call.AppendCall?
    ensures call.append.prevLogIndex == 0 ==> call.append.prevLogTerm == 0
  {
    assert CallOk(h, |c.servers|, call);
    assert ElectionOk(h, |c.servers|, call.append.term);
  }

  lemma MovesAt(n: nat, states: seq<Cluster>, steps: seq<Step>, hs: seq<History>, i: nat, l: nat, p: nat, t: nat)
    requires Whole(n, states, steps, hs) && p < n && i < |steps| && Leads(n, states, i, i + 1, l, t)
    ensures Serves(n, states, i, l) && Serves(n, states, i + 1, l)
    ensures Next(states[i + 1].servers[l], p) == Next(states[i].servers[l], p) || TakesAt(states, steps, i, l, p)
    ensures TakesRefusal(states, steps, i, l, p) ==>
              && Next(states[i].servers[l], p) == steps[i].reply.call.append.prevLogIndex + 1
              && Next(states[i + 1].servers[l], p) == steps[i].reply.appended.failedFirstIndex
  {
    assert Serves(n, states, i, l) && Serves(n, states, i + 1, l);
    StepFacts(n, states, steps, hs, i);
    ServerAt(n, states, steps, hs, i, l);
    LeaderMoves(states[i], steps[i], l, p);
  }

  /** One step of a leadership that is no success: a refusal taken uses up some of what is left. */
  lemma StepUses(n: nat, states: seq<Cluster>, steps: seq<Step>, hs: seq<History>, i: nat, l: nat, p: nat, t: nat, m: nat)
    requires Whole(n, states, steps, hs) && ElectionsMeet(n) && p < n && i < |steps| && Leads(n, states, i, i + 1, l, t)
    requires TakesAt(states, steps, i, l, p) ==> !steps[i].reply.appended.success
    requires RefusesAt(states, steps, m, p, t)
    ensures Serves(n, states, m, p) && Serves(n, states, i, l) && Serves(n, states, i + 1, l)
    ensures var log := states[m].servers[p].log;
            (if TakesRefusal(states, steps, i, l, p) then 1 else 0) + B.Left(log, Next(states[i + 1].servers[l], p))
            <= B.Left(log, Next(states[i].servers[l], p))
  {
    AfterRefusal(n, states, steps, hs, m, p, t);
    MovesAt(n, states, steps, hs, i, l, p, t);
    if TakesRefusal(states, steps, i, l, p) { TakenLeavesLess(n, states, steps, hs, i, l, p, t, m); }
  }

  /** No success of the peer is taken from step `j` up to step `k`. */
  predicate NoSuccess(states: seq<Cluster>, steps: seq<Step>, j: nat, k: nat, l: nat, p: nat) {
    forall i {:trigger TakesAt(states, steps, i, l, p)} ::
      j <= i < k && TakesAt(states, steps, i, l, p) ==> !steps[i].reply.appended.success
  }

  lemma LeadsShorter(n: nat, states: seq<Cluster>, steps: seq<Step>, j: nat, k: nat, l: nat, p: nat, t: nat)
    requires Leads(n, states, j, k, l, t) && NoSuccess(states, steps, j, k, l, p) && j < k
    ensures Leads(n, states, j, k - 1, l, t) && NoSuccess(states, steps, j, k - 1, l, p) && Leads(n, states, k - 1, k, l, t)
  {
  }

  /** Over a stretch of a leadership in which no success is taken, each refusal taken uses up some of
      what is left of the peer's log. */
  lemma {:induction false} StretchUses(n: nat, states: seq<Cluster>, steps: seq<Step>, hs: seq<History>,
                                       j: nat, k: nat, l: nat, p: nat, t: nat, m: nat)
    requires Whole(n, states, steps, hs) && ElectionsMeet(n) && p < n && Leads(n, states, j, k, l, t)
    requires NoSuccess(states, steps, j, k, l, p) && RefusesAt(states, steps, m, p, t)
    ensures Serves(n, states, m, p) && Serves(n, states, j, l) && Serves(n, states, k, l)
    ensures var log := states[m].servers[p].log;
            Count(states, steps, j, k, l, p) + B.Left(log, Next(states[k].servers[l], p)) <= B.Left(log, Next(states[j].servers[l], p))
    decreases k
  {
    AfterRefusal(n, states, steps, hs, m, p, t);
    assert Serves(n, states, j, l) && Serves(n, states, k, l);
    if j < k {
      LeadsShorter(n, states, steps, j, k, l, p, t);
      StretchUses(n, states, steps, hs, j, k - 1, l, p, t, m);
      StepUses(n, states, steps, hs, k - 1, l, p, t, m);
    }
  }

  lemma {:induction false} SomeTaken(states: seq<Cluster>, steps: seq<Step>, j: nat, k: nat, l: nat, p: nat) returns (i: nat)
    requires j <= k && Count(states, steps, j, k, l, p) > 0
    ensures j <= i < k && TakesRefusal(states, steps, i, l, p)
    decreases k
  {
    if TakesRefusal(states, steps, k - 1, l, p) { i := k - 1; } else { i := SomeTaken(states, steps, j, k - 1, l, p); }
  }

  /** The bound over runs: between two successes the refusals a leader takes from a peer in one leadership,
      with stale and repeated replies among them, are at most the distinct terms of the log the peer
      refused with, which is one log for the whole term. */
  lemma RefusalsBounded(n: nat, states: seq<Cluster>, steps: seq<Step>, j: nat, k: nat, l: nat, p: nat, t: nat)
    returns (m: nat)
    requires IsRun(n, states, steps) && ElectionsMeet(n) && p < n && Leads(n, states, j, k, l, t)
    requires NoSuccess(states, steps, j, k, l, p)
    ensures Count(states, steps, j, k, l, p) == 0
            || (m < k && RefusesAt(states, steps, m, p, t)
                && Count(states, steps, j, k, l, p) <= |B.TermsIn(states[m].servers[p].log, |states[m].servers[p].log|)|)
  {
    m := 0;
    if Count(states, steps, j, k, l, p) > 0 {
      var hs := RunExplained(n, states, steps, |steps|);
      var i := SomeTaken(states, steps, j, k, l, p);
      assert Serves(n, states, i, l);
      m := RefusalOrigin(n, states, steps, hs, i, l, p, t);
      StretchUses(n, states, steps, hs, j, k, l, p, t, m);
      B.LeftBound(states[m].servers[p].log, Next(states[j].servers[l], p));
    }
  }
}
