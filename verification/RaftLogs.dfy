/** Facts about logs whose every prefix comes from a leader, and the consequences of a sound
    history: Log Matching and Leader Completeness.

    A log is traced when, up to each index, it is the log of the leader of the term found there. */
module RaftLogs {
  import opened RaftServer
  import opened RaftCluster
  import opened RaftInvariant
  import opened Quorum

  lemma AgreeShorter(a: seq<Entry>, b: seq<Entry>, i: nat, j: nat)
    requires Agree(a, b, i) && j <= i
    ensures Agree(a, b, j)
  {
    assert a[..i + 1][..j + 1] == a[..j + 1];
    assert b[..i + 1][..j + 1] == b[..j + 1];
  }

  lemma AgreeBoth(a: seq<Entry>, b: seq<Entry>, c: seq<Entry>, i: nat, j: nat)
    requires Agree(a, b, i) && Agree(b, c, j)
    ensures i <= j ==> Agree(a, c, i)
    ensures j <= i ==> Agree(a, c, j)
  {
    if i <= j { AgreeShorter(b, c, j, i); } else { AgreeShorter(a, b, i, j); }
  }

  lemma AgreeGrown(a: seq<Entry>, b: seq<Entry>, b': seq<Entry>, i: nat)
    requires i < |b| && b <= b'
    ensures Agree(a, b, i) <==> Agree(a, b', i)
  {
    assert b'[..i + 1] == b[..i + 1];
  }

  lemma PrefixAgrees(a: seq<Entry>, b: seq<Entry>, i: nat)
    requires a <= b && i < |a|
    ensures Agree(a, b, i)
  {
    assert b[..i + 1] == a[..i + 1];
  }

  predicate LogsGrow(logs: map<nat, seq<Entry>>, logs': map<nat, seq<Entry>>) {
    forall t :: t in logs ==> t in logs' && logs[t] <= logs'[t]
  }

  lemma TracedGrown(logs: map<nat, seq<Entry>>, logs': map<nat, seq<Entry>>, log: seq<Entry>)
    requires Traced(logs, log) && LogsGrow(logs, logs')
    ensures Traced(logs', log)
  {
    forall i | 1 <= i < |log| ensures TracedAt(logs', log, i) {
      assert TracedAt(logs, log, i);
      AgreeGrown(log, logs[log[i].term], logs'[log[i].term], i);
    }
  }

  /** Log Matching, for any two logs traced to the leaders. */
  lemma TermsMatch(logs: map<nat, seq<Entry>>, a: seq<Entry>, b: seq<Entry>, i: nat)
    requires Traced(logs, a) && Traced(logs, b) && i < |a| && i < |b| && a[i].term == b[i].term
    ensures Agree(a, b, i)
  {
    if i > 0 {
      assert TracedAt(logs, a, i) && TracedAt(logs, b, i);
    }
  }

  /** A follower that accepts ends with the leader's log, or keeps a log that already contains it. */
  lemma {:induction false} MergeTakesLeader(
    logs: map<nat, seq<Entry>>, log: seq<Entry>, full: seq<Entry>, at: nat, entries: seq<Entry>)
    requires Traced(logs, log) && Traced(logs, full)
    requires 1 <= at <= |log| && at <= |full| && Agree(log, full, at - 1) && entries == full[at..]
    ensures Merge(log, at, entries) == if full <= log then log else full
    decreases |entries|
  {
    assert full == full[..at] + full[at..];
    if entries == [] {
      assert full == log[..at];
    } else if at == |log| {
      assert log == log[..at];
    } else if log[at].term == entries[0].term {
      TermsMatch(logs, log, full, at);
      MergeTakesLeader(logs, log, full, at + 1, entries[1..]);
    }
  }

  lemma TracedOrdered(h: History, n: nat, log: seq<Entry>)
    requires HistoryOk(h, n) && Traced(h.logs, log)
    ensures Ordered(log)
  {
    forall i, j | 0 <= i < j < |log| ensures log[i].term <= log[j].term {
      assert TracedAt(h.logs, log, j);
      var own := h.logs[log[j].term];
      assert ElectionOk(h, n, log[j].term);
      assert log[i] == log[..j + 1][i] == own[..j + 1][i] == own[i];
      assert log[j] == own[..j + 1][j] == own[j];
    }
  }

  /** Entries of a leader's own term come after the log it won with. */
  lemma OwnTermAfterWin(h: History, n: nat, t: nat, i: nat)
    requires HistoryOk(h, n) && t in h.elections && i < |h.logs[t]|
    ensures h.logs[t][i].term == t <==> i >= |h.elections[t].log|
    ensures h.logs[t][i].term <= t
  {
    assert ElectionOk(h, n, t);
    if i < |h.elections[t].log| {
      assert h.logs[t][i] == h.elections[t].log[i];
    }
  }

  lemma TracedEnd(h: History, n: nat, log: seq<Entry>, i: nat)
    requires HistoryOk(h, n) && Traced(h.logs, log) && i < |log| && log[i].term > 0
    ensures log[i].term in h.elections && Agree(log, h.logs[log[i].term], i)
    ensures i >= |h.elections[log[i].term].log|
  {
    assert i > 0;
    assert TracedAt(h.logs, log, i);
    var u := log[i].term;
    assert log[i] == log[..i + 1][i] == h.logs[u][..i + 1][i];
    OwnTermAfterWin(h, n, u, i);
  }

  /** A log whose last term is above `t` contains the log some leader after `t` won with. */
  lemma LaterLogCoversWin(h: History, n: nat, log: seq<Entry>, a: Ack)
    requires HistoryOk(h, n) && Traced(h.logs, log) && a.term in h.logs && a.index < |h.logs[a.term]|
    requires log[|log| - 1].term > a.term
    ensures var u := log[|log| - 1].term;
            u in h.elections
            && (Agree(log, h.logs[a.term], a.index)
                || !Agree(h.elections[u].log, h.logs[a.term], a.index))
  {
    var last := |log| - 1;
    TracedEnd(h, n, log, last);
    var u := log[last].term;
    var won := h.elections[u].log;
    assert ElectionOk(h, n, u);
    if Agree(won, h.logs[a.term], a.index) {
      PrefixAgrees(won, h.logs[u], a.index);
      AgreeBoth(log, h.logs[u], won, last, a.index);
      AgreeBoth(log, won, h.logs[a.term], a.index, a.index);
    }
  }

  /** Leader Completeness: every leader of a later term won with what was committed. */
  lemma {:induction false} LeaderHasCommitted(h: History, n: nat, c: Commit, u: nat)
    requires HistoryOk(h, n) && c in h.commits && u in h.elections && u > c.term
    ensures c.term in h.logs && Agree(h.elections[u].log, h.logs[c.term], c.index)
    decreases u
  {
    assert CommitMade(h, n, c) && ElectionOk(h, n, u);
    var e := h.elections[u];
    var s := MajoritiesMeet(n, e.voters, Holders(h, n, c.term, c.index));
    var a, b := Ack(s, c.term, c.index), Ballot(u, s);
    assert a in h.acks && b in h.votes && h.votes[b] == e.leader;
    assert VoteKeeps(h, b, a);
    if Overridden(h, a, u) {
      var w :| w in h.elections && a.term < w < u && !Agree(h.elections[w].log, h.logs[a.term], a.index);
      LeaderHasCommitted(h, n, c, w);
      assert false;
    }
  }

  /** Committed prefixes of different leaders never conflict. */
  lemma CommitsAgree(h: History, n: nat, c: Commit, d: Commit, i: nat)
    requires HistoryOk(h, n) && c in h.commits && d in h.commits && i <= c.index && i <= d.index
    ensures c.term in h.logs && d.term in h.logs && Agree(h.logs[c.term], h.logs[d.term], i)
  {
    assert CommitMade(h, n, c) && CommitMade(h, n, d);
    if c.term == d.term {
      assert Agree(h.logs[c.term], h.logs[d.term], i);
    } else if c.term < d.term {
      CommitInLog(h, n, c, d.term, i);
    } else {
      CommitInLog(h, n, d, c.term, i);
    }
  }

  lemma CommitInLog(h: History, n: nat, c: Commit, u: nat, i: nat)
    requires HistoryOk(h, n) && c in h.commits && u in h.elections && u > c.term && i <= c.index
    ensures c.term in h.logs && Agree(h.elections[u].log, h.logs[c.term], i)
    ensures Agree(h.logs[u], h.logs[c.term], i)
  {
    LeaderHasCommitted(h, n, c, u);
    assert ElectionOk(h, n, u);
    AgreeShorter(h.elections[u].log, h.logs[c.term], c.index, i);
    AgreeGrown(h.logs[c.term], h.elections[u].log, h.logs[u], i);
  }

  /** State Machine Safety on one history: two covered logs hold the same entries. */
  lemma CoveredAgree(h: History, n: nat, a: seq<Entry>, i: nat, ta: nat, b: seq<Entry>, j: nat, tb: nat)
    requires HistoryOk(h, n)
    requires i < |a| && j < |b| && Covered(h, a, i, ta) && Covered(h, b, j, tb)
    requires a[0] == b[0]
    ensures i <= j ==> Agree(a, b, i)
    ensures j <= i ==> Agree(a, b, j)
  {
    var m := if i <= j then i else j;
    if m > 0 {
      var c :| c in h.commits && c.term <= ta && i <= c.index && c.term in h.logs && Agree(a, h.logs[c.term], i);
      var d :| d in h.commits && d.term <= tb && j <= d.index && d.term in h.logs && Agree(b, h.logs[d.term], j);
      CommitsAgree(h, n, c, d, m);
      AgreeShorter(a, h.logs[c.term], i, m);
      AgreeShorter(b, h.logs[d.term], j, m);
    }
  }
}
