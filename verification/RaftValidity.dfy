/** Nothing is invented: every entry of every log is the command of an earlier `Start` by the leader of
    its term, at the index it has there. */
module RaftValidity {
  import opened RaftServer
  import opened RaftCluster
  import opened RaftInvariant
  import opened RaftElections
  import opened RaftReplication
  import opened RaftSafety

  /** Step `m` is a `Start` accepted by a leader, which puts the entry at the index. */
  predicate StartedAt(states: seq<Cluster>, steps: seq<Step>, m: nat, index: nat, e: Entry) {
    && m < |steps| && m < |states| && steps[m].Submit? && steps[m].i < |states[m].servers|
    && var s := states[m].servers[steps[m].i];
    && s.role == Leader && e == Entry(s.currentTerm, steps[m].command) && index == |s.log|
  }

  predicate Started(states: seq<Cluster>, steps: seq<Step>, k: nat, index: nat, e: Entry) {
    exists m :: 0 <= m < k && StartedAt(states, steps, m, index, e)
  }

  predicate LogValid(states: seq<Cluster>, steps: seq<Step>, k: nat, log: seq<Entry>) {
    forall j {:trigger log[j]} :: 1 <= j < |log| ==> Started(states, steps, k, j, log[j])
  }

  predicate EntriesValid(states: seq<Cluster>, steps: seq<Step>, k: nat, prev: nat, entries: seq<Entry>) {
    forall j {:trigger entries[j]} :: 0 <= j < |entries| ==> Started(states, steps, k, prev + 1 + j, entries[j])
  }

  predicate CallValid(states: seq<Cluster>, steps: seq<Step>, k: nat, call: Call) {
    call.AppendCall? ==> EntriesValid(states, steps, k, call.append.prevLogIndex, call.append.entries)
  }

  predicate Valid(states: seq<Cluster>, steps: seq<Step>, k: nat)
    requires k < |states|
  {
    && (forall i {:trigger states[k].servers[i]} ::
          0 <= i < |states[k].servers| ==> LogValid(states, steps, k, states[k].servers[i].log))
    && forall call {:trigger CallValid(states, steps, k, call)} :: call in states[k].calls ==> CallValid(states, steps, k, call)
  }

  lemma StartedLater(states: seq<Cluster>, steps: seq<Step>, k: nat, log: seq<Entry>)
    requires LogValid(states, steps, k, log)
    ensures LogValid(states, steps, k + 1, log)
  {
  }

  lemma CallLater(states: seq<Cluster>, steps: seq<Step>, k: nat, call: Call)
    requires CallValid(states, steps, k, call)
    ensures CallValid(states, steps, k + 1, call)
  {
  }

  /** Merging takes every entry from the log or from the message, at its own index. */
  lemma {:induction false} MergeFrom(log: seq<Entry>, at: nat, entries: seq<Entry>, j: nat)
    requires at <= |log| && j < |Merge(log, at, entries)|
    ensures (j < |log| && Merge(log, at, entries)[j] == log[j])
            || (at <= j < at + |entries| && Merge(log, at, entries)[j] == entries[j - at])
    decreases |entries|
  {
    if entries != [] && at < |log| && log[at].term == entries[0].term { MergeFrom(log, at + 1, entries[1..], j); }
  }

  lemma AppendValid(states: seq<Cluster>, steps: seq<Step>, k: nat, s: Server, a: AppendArgs)
    requires WellFormed(s) && s.snapshotLastIndex == 0
    requires LogValid(states, steps, k, s.log) && EntriesValid(states, steps, k, a.prevLogIndex, a.entries)
    ensures LogValid(states, steps, k, AppendEntries(s, a).0.log)
  {
    AppendShape(s, a);
    if Accepts(s, a) { MergeValid(states, steps, k, s.log, a.prevLogIndex, a.entries); }
  }

  lemma MergeValid(states: seq<Cluster>, steps: seq<Step>, k: nat, log: seq<Entry>, prev: nat, entries: seq<Entry>)
    requires LogValid(states, steps, k, log) && EntriesValid(states, steps, k, prev, entries) && prev < |log|
    ensures LogValid(states, steps, k, Merge(log, prev + 1, entries))
  {
    var merged := Merge(log, prev + 1, entries);
    forall j | 1 <= j < |merged| ensures Started(states, steps, k, j, merged[j]) { MergeFrom(log, prev + 1, entries, j); }
  }

  /** What a leader sends it has. */
  lemma SentValid(states: seq<Cluster>, steps: seq<Step>, k: nat, s: Server, epoch: nat, call: Call)
    requires CanSend(s) && s.snapshotLastIndex == 0 && LogValid(states, steps, k, s.log)
    requires call in AppendCalls(s, epoch)
    ensures CallValid(states, steps, k, call)
  {
  }

  /** No log is compacted. */
  predicate Plain(c: Cluster) {
    && Shaped(c)
    && forall i {:trigger c.servers[i]} ::
         0 <= i < |c.servers| ==> WellFormed(c.servers[i]) && c.servers[i].snapshotLastIndex == 0
  }

  /** A `Start` adds its own command, and nothing else changes a log but `AppendEntries`. */
  lemma ServerValid(states: seq<Cluster>, steps: seq<Step>, k: nat, i: nat)
    requires k < |steps| && |states| == |steps| + 1 && Plain(states[k]) && Taken(states, steps, k)
    requires Valid(states, steps, k) && i < |states[k + 1].servers| && |states[k + 1].servers| == |states[k].servers|
    ensures LogValid(states, steps, k + 1, states[k + 1].servers[i].log)
  {
    var s, t := states[k].servers[i], states[k + 1].servers[i];
    assert LogValid(states, steps, k, s.log);
    StartedLater(states, steps, k, s.log);
    match steps[k]
    case Submit(l, command) =>
      if l == i && s.role == Leader {
        assert StartedAt(states, steps, k, |s.log|, Entry(s.currentTerm, command));
      }
    case HandleAppend(call) =>
      if call.callee == i {
        assert CallValid(states, steps, k, call);
        AppendValid(states, steps, k, s, call.append);
        StartedLater(states, steps, k, t.log);
      }
    case _ =>
  }

  lemma CallsValid(states: seq<Cluster>, steps: seq<Step>, k: nat, call: Call)
    requires k < |steps| && |states| == |steps| + 1 && Plain(states[k]) && Taken(states, steps, k)
    requires Plain(states[k + 1]) && |states[k + 1].servers| == |states[k].servers|
    requires Valid(states, steps, k) && call in states[k + 1].calls
    requires var c := states[k + 1];
             forall i {:trigger c.servers[i]} :: 0 <= i < |c.servers| ==> LogValid(states, steps, k + 1, c.servers[i].log)
    ensures CallValid(states, steps, k + 1, call)
  {
    var c := states[k];
    if call in c.calls {
      assert CallValid(states, steps, k, call);
      CallLater(states, steps, k, call);
    } else if call.AppendCall? {
      var i := steps[k].i;
      SentValid(states, steps, k + 1, states[k + 1].servers[i], c.epochs[i], call);
    }
  }

  lemma StepValid(states: seq<Cluster>, steps: seq<Step>, k: nat)
    requires k < |steps| && |states| == |steps| + 1 && Plain(states[k]) && Taken(states, steps, k)
    requires Plain(states[k + 1]) && |states[k + 1].servers| == |states[k].servers| && Valid(states, steps, k)
    ensures Valid(states, steps, k + 1)
  {
    var next := k + 1;
    var c := states[next];
    forall i | 0 <= i < |c.servers| ensures LogValid(states, steps, next, c.servers[i].log) {
      ServerValid(states, steps, k, i);
    }
    forall call | call in c.calls ensures CallValid(states, steps, next, call) {
      CallsValid(states, steps, k, call);
    }
  }

  lemma RunPlain(n: nat, states: seq<Cluster>, steps: seq<Step>, hs: seq<History>, k: nat)
    requires Explains(n, states, steps, hs) && k < |hs|
    ensures Plain(states[k]) && |states[k].servers| == n
  {
    assert Inv(states[k], hs[k]);
    forall i | 0 <= i < n ensures WellFormed(states[k].servers[i]) && states[k].servers[i].snapshotLastIndex == 0 {
      ServerAt(n, states, steps, hs, k, i);
    }
  }

  lemma {:induction false} RunValid(n: nat, states: seq<Cluster>, steps: seq<Step>, hs: seq<History>, k: nat)
    requires IsRun(n, states, steps) && Explains(n, states, steps, hs) && |hs| == |steps| + 1 && k <= |steps|
    requires forall j {:trigger Taken(states, steps, j)} :: 0 <= j < |steps| ==> Taken(states, steps, j)
    ensures Valid(states, steps, k)
  {
    if k > 0 {
      RunValid(n, states, steps, hs, k - 1);
      RunPlain(n, states, steps, hs, k - 1);
      RunPlain(n, states, steps, hs, k);
      assert Taken(states, steps, k - 1);
      StepValid(states, steps, k - 1);
    }
  }

  /** Validity: whatever any server has at an index past the sentinel, some `Start` put there, at an
      earlier step, on a server that was then the leader of the entry's term. */
  lemma Validity(n: nat, states: seq<Cluster>, steps: seq<Step>, k: nat, i: nat, j: nat) returns (m: nat)
    requires IsRun(n, states, steps) && ElectionsMeet(n) && k <= |steps|
    requires i < |states[k].servers| && 1 <= j < |states[k].servers[i].log|
    ensures m < k && StartedAt(states, steps, m, j, states[k].servers[i].log[j])
  {
    var hs := RunExplained(n, states, steps, |steps|);
    RunValid(n, states, steps, hs, k);
    assert LogValid(states, steps, k, states[k].servers[i].log);
    m :| 0 <= m < k && StartedAt(states, steps, m, j, states[k].servers[i].log[j]);
  }
}
