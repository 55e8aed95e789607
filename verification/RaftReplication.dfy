/** The replication, commit and restart steps keep the invariant.

    A leader's message carries its whole tail, so a follower that accepts it ends with the leader's log
    or one that contains it, and acknowledges what it holds. A refusal leaves the log alone and points
    below the position tried. A leader that learns of acknowledgements commits the median of its match
    indices, which more than half of the servers hold when the entry there is of its own term. A
    restart keeps what was persisted and forgets roles, indices and pending calls. */
module RaftReplication {
  import opened RaftServer
  import opened RaftCluster
  import opened RaftInvariant
  import opened RaftLogs
  import opened RaftGrowth
  import opened RaftRecord
  import opened RaftElections
  import opened Quorum

  // ----- sending -----

  /** What a leader sends is its own log from `nextIndex` to the end, and no commit beyond it. */
  lemma SentOk(h: History, n: nat, s: Server, p: nat)
    requires HistoryOk(h, n) && ServerOk(h, s) && s.n == n && s.role == Leader && p < n && p != s.me
    ensures SendsEntries(s, p) && s.nextIndex[p] <= LogLength(s)
    ensures AppendCallOk(h, n, s.me, p, EntriesFor(s, p))
  {
    assert PeerOk(h, s, p) && ElectionOk(h, n, s.currentTerm);
  }

  lemma AllSentOk(h: History, n: nat, s: Server, epoch: nat)
    requires HistoryOk(h, n) && ServerOk(h, s) && s.n == n && s.role == Leader
    ensures CanSend(s)
    ensures forall call :: call in AppendCalls(s, epoch) ==>
              call.AppendCall? && CallOk(h, n, call) && call.caller == s.me && call.epoch == epoch
  {
    forall p | 0 <= p < n && p != s.me
      ensures s.nextIndex[p] <= LogLength(s) && SendsEntries(s, p) && AppendCallOk(h, n, s.me, p, EntriesFor(s, p))
    {
      SentOk(h, n, s, p);
    }
  }

  lemma HeartbeatKeepsInv(c: Cluster, h: History, i: nat)
    requires Inv(c, h) && Enabled(c, Heartbeat(i))
    ensures Safe(c, Heartbeat(i)) && Inv(Apply(c, Heartbeat(i)), h)
  {
    var s := c.servers[i];
    AllSentOk(h, s.n, s, c.epochs[i]);
    StepKeepsInv(c, h, h, i, s, AppendCalls(s, c.epochs[i]), {});
  }

  // ----- Start -----

  lemma StartOk(h: History, n: nat, s: Server, command: Command)
    requires HistoryOk(h, n) && ServerOk(h, s) && s.n == n && s.role == Leader
    ensures var h' := WithEntry(h, s.currentTerm, Entry(s.currentTerm, command));
            HistoryOk(h', n) && Extends(h, h', s.me) && ServerOk(h', Start(s, command).0)
  {
    var t := s.currentTerm;
    var entry := Entry(t, command);
    var h', s' := WithEntry(h, t, entry), Start(s, command).0;
    AddEntry(h, n, t, entry);
    assert ElectionOk(h', n, t);
    CoveredGrows(h, h', n, s.log, s'.log, s.commitIndex, t, t);
    StartAcksOk(h, n, s, entry, s');
    StartLeaderOk(h, n, s, command);
    BallotsStay(h, h', s, s');
  }

  lemma StartLeaderOk(h: History, n: nat, s: Server, command: Command)
    requires HistoryOk(h, n) && ServerOk(h, s) && s.n == n && s.role == Leader
    ensures LeaderOk(WithEntry(h, s.currentTerm, Entry(s.currentTerm, command)), Start(s, command).0)
  {
    var h', s' := WithEntry(h, s.currentTerm, Entry(s.currentTerm, command)), Start(s, command).0;
    assert PeerOk(h, s, s.me);
    LargerMajority(n, AtLeast(s.matchIndex, s.commitIndex), AtLeast(s'.matchIndex, s.commitIndex));
    forall p | 0 <= p < n ensures PeerOk(h', s', p) { assert PeerOk(h, s, p); }
  }

  lemma StartAcksOk(h: History, n: nat, s: Server, entry: Entry, s': Server)
    requires HistoryOk(h, n) && AcksOk(h, s) && s.currentTerm in h.elections
    requires s.log == h.logs[s.currentTerm] && h.elections[s.currentTerm].leader == s.me
    requires Grows(h, WithEntry(h, s.currentTerm, entry))
    requires s'.me == s.me && s'.currentTerm == s.currentTerm && s'.log == s.log + [entry]
    ensures AcksOk(WithEntry(h, s.currentTerm, entry), s')
  {
    var h' := WithEntry(h, s.currentTerm, entry);
    forall a | a in h'.acks && a.server == s.me ensures AckKept(h', s', a) {
      if a in h.acks {
        assert AckOk(h, n, a) && AckKept(h, s, a);
        AckKeptGrows(h, h', n, s, a);
        if Agree(s.log, h'.logs[a.term], a.index) { AgreeGrown(h'.logs[a.term], s.log, s'.log, a.index); }
      } else {
        PrefixAgrees(s'.log, h'.logs[a.term], a.index);
      }
    }
  }

  lemma SubmitKeepsInv(c: Cluster, h: History, i: nat, command: Command) returns (h': History)
    requires Inv(c, h) && Enabled(c, Submit(i, command))
    ensures Safe(c, Submit(i, command)) && Grows(h, h') && Inv(Apply(c, Submit(i, command)), h')
  {
    var s := c.servers[i];
    var s' := Start(s, command).0;
    if s.role == Leader {
      h' := WithEntry(h, s.currentTerm, Entry(s.currentTerm, command));
      StartOk(h, s.n, s, command);
      AllSentOk(h', s.n, s', c.epochs[i]);
      StepKeepsInv(c, h, h', i, s', AppendCalls(s', c.epochs[i]), {});
    } else {
      h' := h;
      StepKeepsInv(c, h, h, i, s, {}, {});
    }
  }

  // ----- AppendEntries -----

  /** The leader's log as far as the message carries it. */
  function SentLog(h: History, a: AppendArgs): seq<Entry>
    requires a.term in h.logs && a.prevLogIndex + |a.entries| < |h.logs[a.term]|
  {
    h.logs[a.term][..a.prevLogIndex + |a.entries| + 1]
  }

  lemma SentLogOk(h: History, n: nat, caller: nat, callee: nat, a: AppendArgs)
    requires HistoryOk(h, n) && AppendCallOk(h, n, caller, callee, a)
    ensures var full := SentLog(h, a);
            Traced(h.logs, full) && TermsBelow(full, a.term + 1) && h.elections[a.term].log <= full
            && full[a.prevLogIndex].term == a.prevLogTerm && full[a.prevLogIndex + 1..] == a.entries
  {
    var log, full := h.logs[a.term], SentLog(h, a);
    assert ElectionOk(h, n, a.term);
    forall i | 1 <= i < |full| ensures TracedAt(h.logs, full, i) {
      assert TracedAt(h.logs, log, i);
      AgreeGrown(h.logs[log[i].term], full, log, i);
    }
    forall i | 0 <= i < |full| ensures full[i].term < a.term + 1 {
      OwnTermAfterWin(h, n, a.term, i);
    }
  }

  /** An entry already acknowledged in this term is not refused. */
  lemma AckedIsHeld(h: History, s: Server, a: Ack)
    requires AcksOk(h, s) && a in h.acks && a.server == s.me && a.term >= s.currentTerm
    ensures a.term in h.logs && Agree(s.log, h.logs[a.term], a.index)
    ensures s.log[a.index] == h.logs[a.term][a.index]
  {
    assert AckKept(h, s, a);
    var log := h.logs[a.term];
    assert s.log[..a.index + 1][a.index] == log[..a.index + 1][a.index];
  }

  lemma {:induction false} LowestBound(log: seq<Entry>, start: nat, term: nat, found: nat)
    requires start <= |log| && start <= found + 1
    ensures Lowest(log, start, term, found) <= found
    decreases start
  {
    if start > 0 {
      LowestBound(log, start - 1, term, if log[start - 1].term == term then start - 1 else found);
    }
  }

  /** A refusal for any reason but the term points strictly below where the leader looked, and
      concerns an index the leader had when it won. */
  lemma RefusalOk(h: History, n: nat, s: Server, caller: nat, a: AppendArgs)
    requires HistoryOk(h, n) && ServerOk(h, s) && s.n == n && AppendCallOk(h, n, caller, s.me, a)
    requires s.currentTerm <= a.term && !AppendEntries(s, a).1.success
    ensures a.prevLogIndex < |h.elections[a.term].log|
    ensures 1 <= AppendEntries(s, a).1.failedFirstIndex <= a.prevLogIndex
  {
    assert ElectionOk(h, n, a.term);
    if a.prevLogIndex >= |h.elections[a.term].log| {
      AckedIsHeld(h, s, Ack(s.me, a.term, a.prevLogIndex));
      assert false;
    }
    var start := if |s.log| <= a.prevLogIndex then |s.log| - 1 else a.prevLogIndex;
    LowestBound(s.log, start + 1, s.log[start].term, start);
  }

  /** The follower's log after it accepts. */
  function Accepted(s: Server, a: AppendArgs): seq<Entry>
    requires a.prevLogIndex < |s.log|
  {
    Merge(s.log, a.prevLogIndex + 1, a.entries)
  }

  predicate Accepts(s: Server, a: AppendArgs) {
    s.currentTerm <= a.term && a.prevLogIndex < |s.log| && s.log[a.prevLogIndex].term == a.prevLogTerm
  }

  /** The follower after looking at the term only. */
  function Noted(s: Server, a: AppendArgs): Server {
    if a.term > s.currentTerm then BecomeFollower(s, a.term) else s.(role := Follower)
  }

  function NewCommit(s: Server, a: AppendArgs): nat
    requires a.prevLogIndex < |s.log|
  {
    if a.leaderCommit > s.commitIndex then Min(a.leaderCommit, |Accepted(s, a)| - 1) else s.commitIndex
  }

  /** `AppendEntries` without compaction. */
  lemma AppendShape(s: Server, a: AppendArgs)
    requires WellFormed(s) && s.snapshotLastIndex == 0
    ensures AppendEntries(s, a).1.success <==> Accepts(s, a)
    ensures AppendEntries(s, a).0 == AfterAppend(s, a)
  {
  }

  function AfterAppend(s: Server, a: AppendArgs): Server {
    if a.term < s.currentTerm then s
    else if Accepts(s, a) then Noted(s, a).(log := Accepted(s, a), commitIndex := NewCommit(s, a))
    else Noted(s, a)
  }

  lemma AcceptedIs(h: History, n: nat, s: Server, caller: nat, a: AppendArgs)
    requires HistoryOk(h, n) && LogOk(h, s) && AppendCallOk(h, n, caller, s.me, a) && Accepts(s, a)
    ensures Accepted(s, a) == if SentLog(h, a) <= s.log then s.log else SentLog(h, a)
  {
    SentLogOk(h, n, caller, s.me, a);
    MergeAfterMatch(h.logs, s.log, SentLog(h, a), a.prevLogIndex, a.entries);
  }

  lemma MergeAfterMatch(logs: map<nat, seq<Entry>>, log: seq<Entry>, full: seq<Entry>, prev: nat, entries: seq<Entry>)
    requires Traced(logs, log) && Traced(logs, full) && prev < |log| && prev < |full|
    requires log[prev].term == full[prev].term && entries == full[prev + 1..]
    ensures Merge(log, prev + 1, entries) == if full <= log then log else full
  {
    TermsMatch(logs, log, full, prev);
    MergeTakesLeader(logs, log, full, prev + 1, entries);
  }

  /** Whatever the follower agreed on with a leader of this or an earlier term that the sender
      also has survives. */
  lemma AcceptedKeeps(h: History, n: nat, s: Server, caller: nat, a: AppendArgs, t: nat, i: nat)
    requires HistoryOk(h, n) && LogOk(h, s) && AppendCallOk(h, n, caller, s.me, a) && Accepts(s, a)
    requires t in h.logs && t <= a.term && Agree(s.log, h.logs[t], i)
    requires t < a.term ==> Agree(h.elections[a.term].log, h.logs[t], i)
    ensures Agree(Accepted(s, a), h.logs[t], i)
  {
    var full := SentLog(h, a);
    AcceptedIs(h, n, s, caller, a);
    SentLogOk(h, n, caller, s.me, a);
    if t < a.term {
      AgreeGrown(h.logs[t], h.elections[a.term].log, full, i);
    } else if i < |full| {
      PrefixAgrees(full, h.logs[t], i);
    } else {
      AgreeShorter(s.log, h.logs[t], i, |full| - 1);
      assert full == s.log[..|full|];
    }
  }

  lemma AcceptedLogOk(h: History, n: nat, s: Server, caller: nat, a: AppendArgs)
    requires HistoryOk(h, n) && LogOk(h, s) && AppendCallOk(h, n, caller, s.me, a) && Accepts(s, a)
    ensures var m := Accepted(s, a);
            Traced(h.logs, m) && TermsBelow(m, a.term + 1) && SentLog(h, a) <= m && s.commitIndex < |m|
            && Covered(h, m, s.commitIndex, a.term)
            && Agree(m, h.logs[a.term], a.prevLogIndex + |a.entries|)
  {
    var m, full := Accepted(s, a), SentLog(h, a);
    AcceptedIs(h, n, s, caller, a);
    SentLogOk(h, n, caller, s.me, a);
    PrefixAgrees(full, h.logs[a.term], |full| - 1);
    PrefixAgrees(full, m, |full| - 1);
    AgreeBoth(m, full, h.logs[a.term], |full| - 1, |full| - 1);
    var i := s.commitIndex;
    if i > 0 {
      var c :| c in h.commits && c.term <= s.currentTerm && i <= c.index && c.term in h.logs && Agree(s.log, h.logs[c.term], i);
      if c.term < a.term { CommitInLog(h, n, c, a.term, i); }
      AcceptedKeeps(h, n, s, caller, a, c.term, i);
    }
  }

  /** The commit index taken from the leader covers only entries the message carried. */
  lemma FollowerCommitOk(h: History, n: nat, s: Server, caller: nat, a: AppendArgs)
    requires HistoryOk(h, n) && LogOk(h, s) && AppendCallOk(h, n, caller, s.me, a) && Accepts(s, a)
    ensures Min(a.leaderCommit, |Accepted(s, a)| - 1) == a.leaderCommit
    ensures Covered(h, Accepted(s, a), a.leaderCommit, a.term)
  {
    AcceptedLogOk(h, n, s, caller, a);
    var m, i := Accepted(s, a), a.leaderCommit;
    if i > 0 {
      var c :| c in h.commits && c.term <= a.term && i <= c.index && c.term in h.logs && Agree(h.logs[a.term], h.logs[c.term], i);
      AgreeBoth(m, h.logs[a.term], h.logs[c.term], a.prevLogIndex + |a.entries|, i);
    }
  }

  lemma FollowerAcksOk(h: History, n: nat, s: Server, caller: nat, a: AppendArgs, s': Server)
    requires HistoryOk(h, n) && LogOk(h, s) && AcksOk(h, s) && AppendCallOk(h, n, caller, s.me, a) && Accepts(s, a)
    requires s'.me == s.me && s'.currentTerm == a.term && s'.log == Accepted(s, a)
    ensures AcksOk(WithAcks(h, s.me, a.term, a.prevLogIndex + |a.entries|), s')
  {
    var last := a.prevLogIndex + |a.entries|;
    var h' := WithAcks(h, s.me, a.term, last);
    AcceptedLogOk(h, n, s, caller, a);
    forall k | k in h'.acks && k.server == s.me ensures AckKept(h', s', k) {
      if k in h.acks {
        assert AckOk(h, n, k);
        FollowerAckKept(h, n, s, caller, a, k, s');
        AckKeptGrows(h, h', n, s', k);
      } else {
        AgreeShorter(s'.log, h.logs[a.term], last, k.index);
      }
    }
  }

  lemma FollowerAckKept(h: History, n: nat, s: Server, caller: nat, a: AppendArgs, k: Ack, s': Server)
    requires HistoryOk(h, n) && LogOk(h, s) && AcksOk(h, s) && AppendCallOk(h, n, caller, s.me, a) && Accepts(s, a)
    requires s'.me == s.me && s'.currentTerm == a.term && s'.log == Accepted(s, a)
    requires k in h.acks && k.server == s.me
    ensures AckKept(h, s', k)
  {
    assert AckKept(h, s, k);
    if Overridden(h, k, s.currentTerm + 1) {
      var u :| u in h.elections && k.term < u < s.currentTerm + 1 && !Agree(h.elections[u].log, h.logs[k.term], k.index);
      assert Overridden(h, k, a.term + 1);
    } else if k.term == a.term || Agree(h.elections[a.term].log, h.logs[k.term], k.index) {
      AcceptedKeeps(h, n, s, caller, a, k.term, k.index);
    } else {
      assert a.term in h.elections && k.term < a.term < a.term + 1;
    }
  }

  /** A follower that refuses only notes the term. */
  lemma FollowerTermOk(h: History, n: nat, s: Server, caller: nat, a: AppendArgs)
    requires HistoryOk(h, n) && ServerOk(h, s) && AppendCallOk(h, n, caller, s.me, a) && s.currentTerm <= a.term
    ensures ServerOk(h, Noted(s, a))
  {
    if a.term > s.currentTerm {
      LaterTermOk(h, n, s, a.term);
    } else {
      var s' := s.(role := Follower);
      AcksStay(h, h, n, s, s');
      BallotsStay(h, h, s, s');
    }
  }

  lemma FollowerLogOk(h: History, n: nat, s: Server, caller: nat, a: AppendArgs, s': Server)
    requires HistoryOk(h, n) && LogOk(h, s) && AppendCallOk(h, n, caller, s.me, a) && Accepts(s, a)
    requires s'.log == Accepted(s, a) && s'.currentTerm == a.term && s'.commitIndex == NewCommit(s, a)
    requires s'.snapshotLastIndex == 0 && s'.snapshotLastTerm == 0
    ensures LogOk(h, s')
  {
    AcceptedLogOk(h, n, s, caller, a);
    FollowerCommitOk(h, n, s, caller, a);
  }

  lemma FollowerOk(h: History, n: nat, s: Server, caller: nat, a: AppendArgs, h': History, s': Server)
    requires HistoryOk(h, n) && ServerOk(h, s) && s.n == n && AppendCallOk(h, n, caller, s.me, a) && Accepts(s, a)
    requires Grows(h, h') && h' == WithAcks(h, s.me, a.term, a.prevLogIndex + |a.entries|)
    requires s' == Noted(s, a).(log := Accepted(s, a), commitIndex := NewCommit(s, a))
    ensures ServerOk(h', s')
  {
    FollowerLogOk(h, n, s, caller, a, s');
    LogOkGrows(h, h', n, s', s');
    FollowerAcksOk(h, n, s, caller, a, s');
    FollowerTermOk(h, n, s, caller, a);
    BallotsStay(h, h', Noted(s, a), s');
  }

  /** What handling the message adds to the history. */
  function Handled(h: History, s: Server, a: AppendArgs): History {
    if Accepts(s, a) then WithAcks(h, s.me, a.term, a.prevLogIndex + |a.entries|) else h
  }

  lemma HandledHistoryOk(h: History, n: nat, s: Server, caller: nat, a: AppendArgs)
    requires HistoryOk(h, n) && s.me < n && AppendCallOk(h, n, caller, s.me, a) && AcksOk(h, s) && LogOk(h, s) && BallotsOk(h, s)
    ensures HistoryOk(Handled(h, s, a), n) && Extends(h, Handled(h, s, a), s.me)
  {
    if Accepts(s, a) { AddAcks(h, n, s.me, a.term, a.prevLogIndex + |a.entries|); }
  }

  lemma HandledOk(h: History, n: nat, s: Server, caller: nat, a: AppendArgs)
    requires HistoryOk(h, n) && ServerOk(h, s) && s.n == n && AppendCallOk(h, n, caller, s.me, a)
    ensures HistoryOk(Handled(h, s, a), n) && Extends(h, Handled(h, s, a), s.me)
    ensures ServerOk(Handled(h, s, a), AfterAppend(s, a))
  {
    HandledHistoryOk(h, n, s, caller, a);
    if Accepts(s, a) {
      AcceptShape(h, s, a);
      FollowerOk(h, n, s, caller, a, Handled(h, s, a), AfterAppend(s, a));
    } else {
      RefuserOk(h, n, s, caller, a);
    }
  }

  lemma AcceptShape(h: History, s: Server, a: AppendArgs)
    requires Accepts(s, a)
    ensures Handled(h, s, a) == WithAcks(h, s.me, a.term, a.prevLogIndex + |a.entries|)
    ensures AfterAppend(s, a) == Noted(s, a).(log := Accepted(s, a), commitIndex := NewCommit(s, a))
  {
  }

  lemma RefuserOk(h: History, n: nat, s: Server, caller: nat, a: AppendArgs)
    requires HistoryOk(h, n) && ServerOk(h, s) && AppendCallOk(h, n, caller, s.me, a) && !Accepts(s, a)
    ensures ServerOk(h, AfterAppend(s, a))
  {
    if a.term >= s.currentTerm { FollowerTermOk(h, n, s, caller, a); }
  }

  lemma AnswerOk(h: History, n: nat, s: Server, call: Call)
    requires HistoryOk(h, n) && ServerOk(h, s) && s.n == n && CallOk(h, n, call) && call.AppendCall? && call.callee == s.me
    requires Grows(h, Handled(h, s, call.append))
    ensures ReplyOk(Handled(h, s, call.append), n, Appended(call, AppendEntries(s, call.append).1))
  {
    AppendShape(s, call.append);
    CallOkGrows(h, Handled(h, s, call.append), n, call);
    if !AppendEntries(s, call.append).1.success && call.append.term >= s.currentTerm {
      RefusalOk(h, n, s, call.caller, call.append);
    }
  }

  lemma NewAcksConfirmed(h: History, s: Server, call: Call)
    requires WellFormed(s) && s.snapshotLastIndex == 0 && call.AppendCall? && call.callee == s.me
    ensures forall a {:trigger Confirms(Appended(call, AppendEntries(s, call.append).1), a)} ::
              a in Handled(h, s, call.append).acks && a !in h.acks ==> Confirms(Appended(call, AppendEntries(s, call.append).1), a)
    ensures var s' := AfterAppend(s, call.append); s'.me == s.me && s'.n == s.n && s'.votesReceived == s.votesReceived
  {
    AppendShape(s, call.append);
  }

  lemma HandleAppendKeepsInv(c: Cluster, h: History, call: Call) returns (h': History)
    requires Inv(c, h) && Enabled(c, HandleAppend(call))
    ensures Safe(c, HandleAppend(call)) && Grows(h, h') && Inv(Apply(c, HandleAppend(call)), h')
  {
    var s := c.servers[call.callee];
    assert CallOk(h, s.n, call);
    h' := Handled(h, s, call.append);
    HandledOk(h, s.n, s, call.caller, call.append);
    AnswerOk(h, s.n, s, call);
    AppendShape(s, call.append);
    var r := Appended(call, AppendEntries(s, call.append).1);
    NewAcksConfirmed(h, s, call);
    AnswerKeepsInv(c, h, h', call.callee, AfterAppend(s, call.append), r);
  }

  // ----- sendEntries after the reply -----

  lemma RefusedOk(h: History, n: nat, s: Server, peer: nat, a: AppendArgs, first: nat)
    requires HistoryOk(h, n) && ServerOk(h, s) && s.n == n && s.role == Leader && peer < n && peer != s.me
    requires s.nextIndex[peer] == a.prevLogIndex + 1
    requires a.prevLogIndex < |h.elections[s.currentTerm].log| && 1 <= first <= a.prevLogIndex
    ensures ServerOk(h, s.(nextIndex := s.nextIndex[peer := first]))
  {
    var s' := s.(nextIndex := s.nextIndex[peer := first]);
    forall p | 0 <= p < n ensures PeerOk(h, s', p) { assert PeerOk(h, s, p); }
    BookkeepingOk(h, n, s, s');
  }

  /** An acknowledgement the leader takes never lowers `matchIndex`. */
  lemma MatchGrows(h: History, n: nat, s: Server, peer: nat, a: AppendArgs)
    requires ServerOk(h, s) && s.n == n && s.role == Leader && AppendCallOk(h, n, s.me, peer, a)
    requires s.nextIndex[peer] == a.prevLogIndex + 1 && a.term == s.currentTerm
    ensures s.matchIndex[peer] <= Matched(s, peer, a).matchIndex[peer]
  {
    assert PeerOk(h, s, peer);
  }

  lemma MatchedLeaderOk(h: History, n: nat, s: Server, peer: nat, a: AppendArgs)
    requires ServerOk(h, s) && s.n == n && s.role == Leader && AppendCallOk(h, n, s.me, peer, a)
    requires s.nextIndex[peer] == a.prevLogIndex + 1 && a.term == s.currentTerm
    requires Ack(peer, a.term, a.prevLogIndex + |a.entries|) in h.acks
    ensures LeaderOk(h, Matched(s, peer, a))
  {
    var s' := Matched(s, peer, a);
    MatchGrows(h, n, s, peer, a);
    LargerMajority(n, AtLeast(s.matchIndex, s.commitIndex), AtLeast(s'.matchIndex, s.commitIndex));
    forall p | 0 <= p < n ensures PeerOk(h, s', p) { assert PeerOk(h, s, p); }
  }

  /** The sorted median of a leader's `matchIndex` is inside its log and not below its commit index. */
  lemma MedianOk(h: History, s: Server)
    requires WellFormed(s) && LogOk(h, s) && LeaderOk(h, s) && s.role == Leader
    ensures MedianInLog(s) && s.commitIndex <= Median(s.matchIndex)
  {
    MedianIsElement(s.matchIndex);
    var p :| 0 <= p < s.n && s.matchIndex[p] == Median(s.matchIndex);
    assert PeerOk(h, s, p);
    MedianIsMajority(s.matchIndex, s.commitIndex);
  }

  lemma MatchedOk(h: History, n: nat, s: Server, peer: nat, a: AppendArgs)
    requires HistoryOk(h, n) && ServerOk(h, s) && s.n == n && s.role == Leader && AppendCallOk(h, n, s.me, peer, a)
    requires s.nextIndex[peer] == a.prevLogIndex + 1 && a.term == s.currentTerm
    requires Ack(peer, a.term, a.prevLogIndex + |a.entries|) in h.acks
    ensures ServerOk(h, Matched(s, peer, a)) && MedianInLog(Matched(s, peer, a))
    ensures s.commitIndex <= Median(Matched(s, peer, a).matchIndex)
  {
    MatchedLeaderOk(h, n, s, peer, a);
    BookkeepingOk(h, n, s, Matched(s, peer, a));
    MedianOk(h, Matched(s, peer, a));
  }

  /** The median beyond the commit index, if an entry of this term, is held by a majority. */
  lemma MedianIsCommitted(h: History, n: nat, s: Server)
    requires HistoryOk(h, n) && ServerOk(h, s) && s.n == n && s.role == Leader && MedianInLog(s)
    requires s.commitIndex < Median(s.matchIndex) && s.log[Median(s.matchIndex)].term == s.currentTerm
    ensures CommitMade(h, n, Commit(s.currentTerm, Median(s.matchIndex)))
  {
    var t, m := s.currentTerm, Median(s.matchIndex);
    MedianIsMajority(s.matchIndex, m);
    forall p | p in AtLeast(s.matchIndex, m) ensures p in Holders(h, n, t, m) {
      assert PeerOk(h, s, p);
      assert AckOk(h, n, Ack(p, t, s.matchIndex[p]));
    }
    LargerMajority(n, AtLeast(s.matchIndex, m), Holders(h, n, t, m));
  }

  lemma CommittedOk(h: History, n: nat, s: Server, m: nat)
    requires HistoryOk(h, n) && ServerOk(h, s) && s.n == n && s.role == Leader
    requires s.commitIndex < m == Median(s.matchIndex) < |s.log|
    requires Grows(h, WithCommit(h, Commit(s.currentTerm, m)))
    ensures ServerOk(WithCommit(h, Commit(s.currentTerm, m)), s.(commitIndex := m))
  {
    var t := s.currentTerm;
    var c, s' := Commit(t, m), s.(commitIndex := m);
    var h' := WithCommit(h, c);
    MedianIsMajority(s.matchIndex, m);
    AcksStay(h, h', n, s, s');
    BallotsStay(h, h', s, s');
    TracedGrown(h.logs, h'.logs, s.log);
    assert c in h'.commits && Agree(s.log, h'.logs[t], m);
    forall p | 0 <= p < n ensures PeerOk(h', s', p) { assert PeerOk(h, s, p); }
  }

  lemma UpdatedOk(h: History, n: nat, s: Server) returns (h': History)
    requires HistoryOk(h, n) && ServerOk(h, s) && s.n == n && s.role == Leader
    requires MedianInLog(s) && s.commitIndex <= Median(s.matchIndex)
    ensures HistoryOk(h', n) && Extends(h, h', s.me) && ServerOk(h', UpdateCommitIndex(s)) && h'.acks == h.acks
  {
    var m := Median(s.matchIndex);
    if s.log[m].term == s.currentTerm && m > s.commitIndex {
      h' := WithCommit(h, Commit(s.currentTerm, m));
      RaisedOk(h, n, s);
      assert UpdateCommitIndex(s) == s.(commitIndex := m);
    } else {
      h' := h;
      assert UpdateCommitIndex(s) == s;
    }
  }

  lemma RaisedOk(h: History, n: nat, s: Server)
    requires HistoryOk(h, n) && ServerOk(h, s) && s.n == n && s.role == Leader && MedianInLog(s)
    requires s.commitIndex < Median(s.matchIndex) && s.log[Median(s.matchIndex)].term == s.currentTerm
    ensures var m := Median(s.matchIndex);
            var h' := WithCommit(h, Commit(s.currentTerm, m));
            HistoryOk(h', n) && Extends(h, h', s.me) && ServerOk(h', s.(commitIndex := m))
  {
    MedianIsCommitted(h, n, s);
    AddCommit(h, n, Commit(s.currentTerm, Median(s.matchIndex)), s.me);
    CommittedOk(h, n, s, Median(s.matchIndex));
  }

  lemma ReceivedOk(h: History, n: nat, s: Server, reply: Reply) returns (h': History)
    requires HistoryOk(h, n) && ServerOk(h, s) && s.n == n && ReplyOk(h, n, reply) && reply.Appended?
    requires reply.call.caller == s.me
    ensures var peer, a, r := reply.call.callee, reply.call.append, reply.appended;
            && (TakesAppendReply(s, peer, a, r) && r.success ==> MedianInLog(Matched(s, peer, a)))
            && HistoryOk(h', n) && Extends(h, h', s.me) && ServerOk(h', ReceiveAppend(s, peer, a, r))
            && h'.acks == h.acks
  {
    var peer, a, r := reply.call.callee, reply.call.append, reply.appended;
    h' := h;
    if r.term > s.currentTerm {
      LaterTermOk(h, n, s, r.term);
    } else if TakesAppendReply(s, peer, a, r) {
      if r.success {
        MatchedOk(h, n, s, peer, a);
        h' := UpdatedOk(h, n, Matched(s, peer, a));
      } else {
        RefusedOk(h, n, s, peer, a, r.failedFirstIndex);
      }
    }
  }

  lemma ReceiverSame(s: Server, peer: nat, a: AppendArgs, r: AppendReply)
    requires WellFormed(s)
    requires TakesAppendReply(s, peer, a, r) && r.success ==> MedianInLog(Matched(s, peer, a))
    ensures var s' := ReceiveAppend(s, peer, a, r); s'.me == s.me && s'.n == s.n && s'.votesReceived == s.votesReceived
  {
  }

  lemma FinishAppendKeepsInv(c: Cluster, h: History, reply: Reply) returns (h': History)
    requires Inv(c, h) && Enabled(c, FinishAppend(reply))
    ensures Safe(c, FinishAppend(reply)) && Grows(h, h') && Inv(Apply(c, FinishAppend(reply)), h')
  {
    var s := c.servers[reply.call.caller];
    assert ReplyOk(h, s.n, reply);
    h' := ReceivedOk(h, s.n, s, reply);
    ReceiverSame(s, reply.call.callee, reply.call.append, reply.appended);
    QuietStepKeepsInv(c, h, h', s.me, ReceiveAppend(s, reply.call.callee, reply.call.append, reply.appended));
  }

  // ----- restart -----

  lemma RestartedOk(h: History, n: nat, s: Server)
    requires HistoryOk(h, n) && ServerOk(h, s)
    ensures ServerOk(h, Boot(s.me, s.n, DiskOf(s)))
  {
    AcksStay(h, h, n, s, Boot(s.me, s.n, DiskOf(s)));
  }

  lemma RestartKeepsInv(c: Cluster, h: History, i: nat)
    requires Inv(c, h) && Enabled(c, Restart(i))
    ensures Safe(c, Restart(i)) && Inv(Apply(c, Restart(i)), h)
  {
    var s := c.servers[i];
    RestartedOk(h, s.n, s);
    var c' := Apply(c, Restart(i));
    forall call | call in c'.calls ensures CallOk(h, s.n, call) && EpochOk(c', call) {
      assert CallOk(h, s.n, call) && EpochOk(c, call);
    }
    forall r | r in c'.replies ensures ReplyOk(h, s.n, r) && r.call in c'.calls {
      assert ReplyOk(h, s.n, r);
    }
    forall a | a in h.acks ensures AckBacked(c'.replies, h, a) { assert AckBacked(c.replies, h, a); }
  }
}
