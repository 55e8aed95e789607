/** Fast log backtracking: a leader and an uncompacted follower agree after at most as many refusals
    as there are terms in the follower's log. */
module RaftBacktracking {
  import opened RaftServer
  import opened RaftInvariant
  import opened RaftCompaction
  import opened RaftCluster
  import opened RaftElections
  import opened RaftSafety
  import opened Quorum

  /** A log without compaction: a sentinel of term 0, then ordered entries of later terms. */
  predicate FullLog(s: Server) {
    && WellFormed(s) && s.snapshotLastIndex == 0 && s.snapshotLastTerm == 0
    && s.log[0] == Sentinel(0) && Ordered(s.log)
    && forall i :: 1 <= i < |s.log| ==> s.log[i].term >= 1
  }

  // ----- one refusal -----

  /** The position whose term a refusal reports. */
  function ConflictAt(log: seq<Entry>, next: nat): nat
    requires log != [] && next >= 1
  {
    if |log| < next then |log| - 1 else next - 1
  }

  /** The distinct terms among the first `k` entries. */
  function TermsIn(log: seq<Entry>, k: nat): set<nat>
    requires k <= |log|
  {
    set i | 0 <= i < k :: log[i].term
  }

  /** What is left to try: nothing at index 1, else the distinct terms below the position. */
  function Left(log: seq<Entry>, next: nat): nat {
    if next <= 1 then 0 else |TermsIn(log, if |log| < next then |log| else next)|
  }

  lemma TermsShrink(log: seq<Entry>, first: nat, k: nat, term: nat)
    requires first < k <= |log| && log[first].term == term
    requires forall i :: 0 <= i < first ==> log[i].term < term
    ensures |TermsIn(log, first)| < |TermsIn(log, k)|
  {
    assert term in TermsIn(log, k) && term !in TermsIn(log, first);
    SubsetSize(TermsIn(log, first) + {term}, TermsIn(log, k));
  }

  lemma SomeTerm(log: seq<Entry>, k: nat)
    requires 0 < k <= |log|
    ensures |TermsIn(log, k)| > 0
  {
    assert log[0].term in TermsIn(log, k);
  }

  lemma LeftBound(log: seq<Entry>, next: nat)
    ensures Left(log, next) <= |TermsIn(log, |log|)|
  {
    if next > 1 { SubsetSize(TermsIn(log, if |log| < next then |log| else next), TermsIn(log, |log|)); }
  }

  /** A refusal leaves the log alone and reports the term in conflict with its lowest index. */
  lemma RefusalReports(f: Server, a: AppendArgs)
    requires FullLog(f) && a.term >= f.currentTerm && !AppendEntries(f, a).1.success
    requires a.prevLogIndex == 0 ==> a.prevLogTerm == 0
    ensures a.prevLogIndex >= 1 && AppendEntries(f, a).0.log == f.log
    ensures var at, r := ConflictAt(f.log, a.prevLogIndex + 1), AppendEntries(f, a).1;
            && r.failedTerm == f.log[at].term
            && r.failedFirstIndex == if r.failedTerm == 0 then 1 else Max(Lowest(f.log, at + 1, f.log[at].term, at), 1)
  {
  }

  /** It sends the leader back to the first index of that term, and leaves it less to try. */
  lemma RefusalLeavesLess(f: Server, a: AppendArgs)
    requires FullLog(f) && a.term >= f.currentTerm && !AppendEntries(f, a).1.success
    requires a.prevLogIndex == 0 ==> a.prevLogTerm == 0
    ensures var at, r := ConflictAt(f.log, a.prevLogIndex + 1), AppendEntries(f, a).1;
            && r.failedTerm == f.log[at].term
            && (if r.failedTerm == 0 then r.failedFirstIndex == 1 else FirstOf(f.log, at, r.failedFirstIndex))
            && 1 <= r.failedFirstIndex <= a.prevLogIndex
            && Left(f.log, r.failedFirstIndex) < Left(f.log, a.prevLogIndex + 1)
  {
    var at := ConflictAt(f.log, a.prevLogIndex + 1);
    RefusalReports(f, a);
    LowestFrom(f.log, at);
    var r := AppendEntries(f, a).1;
    SomeTerm(f.log, at + 1);
    if r.failedTerm != 0 && r.failedFirstIndex > 1 { TermsShrink(f.log, r.failedFirstIndex, at + 1, r.failedTerm); }
  }

  // ----- a leader and a peer, undisturbed -----

  /** The leader `l` is still looking for where the log of follower `f`, its peer `p`, agrees. */
  predicate Probing(l: Server, p: nat, f: Server) {
    && FullLog(l) && FullLog(f) && l.role == Leader && p < l.n && f.currentTerm <= l.currentTerm
    && 1 <= l.nextIndex[p] <= |l.log|
  }

  /** One exchange: the message sent, and the follower's answer. */
  function Probe(l: Server, p: nat, f: Server): (Server, AppendReply)
    requires Probing(l, p, f)
  {
    AppendEntries(f, EntriesFor(l, p))
  }

  /** The leader after a refusal. */
  function Backtracked(l: Server, p: nat, f: Server): Server
    requires Probing(l, p, f) && !Probe(l, p, f).1.success
  {
    ReceiveAppend(l, p, EntriesFor(l, p), Probe(l, p, f).1)
  }

  /** A refusal reports the term in conflict and the first index of that term, and the leader goes
      back there; the follower's log is untouched. */
  lemma RefusedProbe(l: Server, p: nat, f: Server)
    requires Probing(l, p, f) && !Probe(l, p, f).1.success
    ensures var r, at := Probe(l, p, f).1, ConflictAt(f.log, l.nextIndex[p]);
            && r.failedTerm == f.log[at].term
            && (if r.failedTerm == 0 then r.failedFirstIndex == 1 else FirstOf(f.log, at, r.failedFirstIndex))
    ensures Probe(l, p, f).0.log == f.log && Probing(Backtracked(l, p, f), p, Probe(l, p, f).0)
    ensures Backtracked(l, p, f).nextIndex[p] == Probe(l, p, f).1.failedFirstIndex < l.nextIndex[p]
    ensures Backtracked(l, p, f).log == l.log
    ensures Left(f.log, Backtracked(l, p, f).nextIndex[p]) < Left(f.log, l.nextIndex[p])
  {
    RefusalReports(f, EntriesFor(l, p));
    RefusalLeavesLess(f, EntriesFor(l, p));
    KeepsProbing(l, p, f);
  }

  lemma KeepsProbing(l: Server, p: nat, f: Server)
    requires Probing(l, p, f) && !Probe(l, p, f).1.success && Probe(l, p, f).0.log == f.log
    requires 1 <= Probe(l, p, f).1.failedFirstIndex < l.nextIndex[p]
    ensures Probing(Backtracked(l, p, f), p, Probe(l, p, f).0)
    ensures Backtracked(l, p, f).nextIndex[p] == Probe(l, p, f).1.failedFirstIndex && Backtracked(l, p, f).log == l.log
  {
  }

  /** How many exchanges are refused before the first that is accepted. */
  function Refusals(l: Server, p: nat, f: Server): nat
    requires Probing(l, p, f)
    decreases l.nextIndex[p]
  {
    if Probe(l, p, f).1.success then 0
    else
      RefusedProbe(l, p, f);
      1 + Refusals(Backtracked(l, p, f), p, Probe(l, p, f).0)
  }

  /** A second refusal reports an earlier term than the first. */
  lemma RefusalsGoBack(l: Server, p: nat, f: Server)
    requires Probing(l, p, f) && !Probe(l, p, f).1.success
    ensures var l', f' := Backtracked(l, p, f), Probe(l, p, f).0;
            && Probing(l', p, f') && l'.nextIndex[p] < l.nextIndex[p]
            && (!Probe(l', p, f').1.success ==> Probe(l', p, f').1.failedTerm < Probe(l, p, f).1.failedTerm)
  {
    RefusedProbe(l, p, f);
    var l', f' := Backtracked(l, p, f), Probe(l, p, f).0;
    if !Probe(l', p, f').1.success { RefusedProbe(l', p, f'); }
  }

  /** The number of refusals is at most what is left to try where the leader starts. */
  lemma {:induction false} RefusalsBound(l: Server, p: nat, f: Server)
    requires Probing(l, p, f)
    ensures Refusals(l, p, f) <= Left(f.log, l.nextIndex[p])
    decreases l.nextIndex[p]
  {
    if !Probe(l, p, f).1.success {
      RefusedProbe(l, p, f);
      RefusalsBound(Backtracked(l, p, f), p, Probe(l, p, f).0);
    }
  }

  /** The bound the documentation promises: O(terms) round trips. */
  lemma RefusalsAtMostTerms(l: Server, p: nat, f: Server)
    requires Probing(l, p, f)
    ensures Refusals(l, p, f) <= |TermsIn(f.log, |f.log|)|
  {
    RefusalsBound(l, p, f);
    LeftBound(f.log, l.nextIndex[p]);
  }

  /** In every run the logs have the shape the bound needs. */
  lemma LogsAreFull(n: nat, states: seq<Cluster>, steps: seq<Step>, k: nat, i: nat)
    requires IsRun(n, states, steps) && ElectionsMeet(n) && k < |states| && i < n
    ensures Serves(n, states, k, i) && FullLog(states[k].servers[i]) && states[k].servers[i].n == n
    ensures states[k].servers[i].role == Leader ==>
              forall p :: 0 <= p < n && p != i ==> 1 <= states[k].servers[i].nextIndex[p] <= |states[k].servers[i].log|
  {
    var hs := RunExplained(n, states, steps, |steps|);
    ServerAt(n, states, steps, hs, k, i);
    LogMatching(n, states, steps, k, i, k, i, 0);
    var s, h := states[k].servers[i], hs[k];
    forall j | 1 <= j < |s.log| ensures s.log[j].term >= 1 {
      assert TracedAt(h.logs, s.log, j) && ElectionOk(h, n, s.log[j].term);
    }
    if s.role == Leader {
      forall p | 0 <= p < n && p != i ensures 1 <= s.nextIndex[p] <= |s.log| { assert PeerOk(h, s, p); }
    }
  }

  /** So, at any time in any run, a leader and a peer that is not ahead of its term are at most
      that many refusals apart. */
  lemma BacktrackingBound(n: nat, states: seq<Cluster>, steps: seq<Step>, k: nat, a: nat, b: nat)
    requires IsRun(n, states, steps) && ElectionsMeet(n) && k < |states| && a < n && b < n && a != b
    ensures Serves(n, states, k, a) && Serves(n, states, k, b)
    ensures var l, f := states[k].servers[a], states[k].servers[b];
            l.role == Leader && f.currentTerm <= l.currentTerm ==>
              Probing(l, b, f) && Refusals(l, b, f) <= |TermsIn(f.log, |f.log|)|
  {
    LogsAreFull(n, states, steps, k, a);
    LogsAreFull(n, states, steps, k, b);
    var l, f := states[k].servers[a], states[k].servers[b];
    if l.role == Leader && f.currentTerm <= l.currentTerm { RefusalsAtMostTerms(l, b, f); }
  }
}
