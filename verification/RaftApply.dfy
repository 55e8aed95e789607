/** One server's apply loop, with its snapshots: `applyTicker` of `src/raft1/raft.go` gives up the
    lock while it sends to the service, so `Snapshot`, `InstallSnapshot` and every message handler
    may run in between. */
module RaftApply {
  import opened RaftServer

  /** What goes to the service over `applyCh`. */
  datatype Msg =
    | Command(index: nat, command: RaftServer.Command)
    | Restore(index: nat, term: nat, data: Snapshot)

  /** Where the apply loop is while it does not hold the lock. */
  datatype Pc = Asleep | Sending(msg: Msg) | Sent(msg: Msg)

  /** The server, its apply loop and everything the service has received. */
  datatype Node = Node(s: Server, pc: Pc, stream: seq<Msg>)

  /** The log every commit and snapshot agrees with, and the service's snapshot at each index. */
  datatype Truth = Truth(entry: nat -> Entry, image: nat -> Snapshot)

  /** The other regions of the server that run under the lock. */
  datatype Event =
    | Election
    | Vote(vote: VoteArgs)
    | VoteReturn(peer: nat, term: nat, voted: VoteReply)
    | Submit(command: RaftServer.Command)
    | Append(append: AppendArgs)
    | AppendReturn(peer: nat, sent: AppendArgs, appended: AppendReply)

  datatype Step =
    | Wake                                    // the loop takes the lock after sleeping
    | Deliver                                 // the service receives what is being sent
    | Resume                                  // the loop takes the lock again after a send
    | ServiceSnapshot(index: nat)             // Snapshot
    | Install(args: InstallArgs)              // InstallSnapshot
    | Handle(event: Event)

  // ----- the locked regions of the loop -----

  /** The inner loop over committed commands, up to its next send. */
  function NextCommand(s: Server): (Server, Pc)
    requires s.commitIndex > s.lastApplied ==> s.snapshotLastIndex <= s.lastApplied + 1 < LogLength(s)
  {
    if s.commitIndex > s.lastApplied then
      (s.(lastApplied := s.lastApplied + 1), Sending(Command(s.lastApplied + 1, At(s, s.lastApplied + 1).command)))
    else (s, Asleep)
  }

  predicate LookupOk(s: Server) {
    s.isSnapshotApplied && s.commitIndex > s.lastApplied ==>
      s.snapshotLastIndex <= s.lastApplied + 1 < LogLength(s)
  }

  /** From the top of the loop to its next send. */
  function Proceed(s: Server): (Server, Pc)
    requires LookupOk(s)
  {
    if !s.isSnapshotApplied then
      (s.(lastApplied := s.snapshotLastIndex),
       Sending(Restore(s.snapshotLastIndex, s.snapshotLastTerm, s.snapshot)))
    else NextCommand(s)
  }

  /** The server when the loop has the lock back. */
  function Noted(s: Server, msg: Msg): Server {
    if msg.Restore? && msg.index == s.snapshotLastIndex then s.(isSnapshotApplied := true) else s
  }

  /** After a send: go on, unless a snapshot has arrived while sending a command. */
  function AfterSend(s: Server, msg: Msg): (Server, Pc)
    requires LookupOk(Noted(s, msg))
  {
    if msg.Command? && !s.isSnapshotApplied then (s, Asleep) else Proceed(Noted(s, msg))
  }

  predicate CanReact(s: Server, e: Event) {
    WellFormed(s) &&
    match e
    case VoteReturn(peer, term, r) => CountsVote(s, term, r) ==> peer < |s.votesReceived|
    case AppendReturn(peer, a, r) => TakesAppendReply(s, peer, a, r) && r.success ==> MedianInLog(Matched(s, peer, a))
    case _ => true
  }

  function React(s: Server, e: Event): Server
    requires CanReact(s, e)
  {
    match e
    case Election => StartElection(s)
    case Vote(a) => RequestVote(s, a).0
    case VoteReturn(peer, term, r) => ReceiveVote(s, peer, term, r)
    case Submit(command) => Start(s, command).0
    case Append(a) => AppendEntries(s, a).0
    case AppendReturn(peer, a, r) => ReceiveAppend(s, peer, a, r)
  }

  /** What is committed here is what is committed everywhere. */
  ghost predicate Agrees(truth: Truth, s: Server) {
    && s.snapshotLastIndex <= s.commitIndex < LogLength(s)
    && forall k :: s.snapshotLastIndex < k <= s.commitIndex ==> At(s, k) == truth.entry(k)
  }

  /** The index the service received last; `base` is where it started. */
  function Last(base: nat, stream: seq<Msg>): nat {
    if stream == [] then base else stream[|stream| - 1].index
  }

  /** The step can happen. Handlers keep the committed log and the commit index, as the protocol
      guarantees; a snapshot from a leader is of that log; the service snapshots only the index it
      received last. */
  ghost predicate Enabled(truth: Truth, base: nat, node: Node, step: Step) {
    match step
    case Wake => node.pc.Asleep?
    case Deliver => node.pc.Sending?
    case Resume => node.pc.Sent?
    case ServiceSnapshot(index) => index == Last(base, node.stream)
    case Install(a) =>
      a.lastIncludedTerm == truth.entry(a.lastIncludedIndex).term && a.data == truth.image(a.lastIncludedIndex)
    case Handle(e) =>
      CanReact(node.s, e) && Agrees(truth, React(node.s, e)) && node.s.commitIndex <= React(node.s, e).commitIndex
  }

  /** Every log access of the region is in range. */
  ghost predicate Safe(truth: Truth, base: nat, node: Node, step: Step)
    requires Enabled(truth, base, node, step)
  {
    match step
    case Wake => LookupOk(node.s)
    case Resume => LookupOk(Noted(node.s, node.pc.msg))
    case ServiceSnapshot(index) => index < LogLength(node.s)
    case _ => true
  }

  ghost function Apply(truth: Truth, base: nat, node: Node, step: Step): Node
    requires Enabled(truth, base, node, step) && Safe(truth, base, node, step)
  {
    match step
    case Wake => var (s, pc) := Proceed(node.s); node.(s := s, pc := pc)
    case Deliver => node.(pc := Sent(node.pc.msg), stream := node.stream + [node.pc.msg])
    case Resume => var (s, pc) := AfterSend(node.s, node.pc.msg); node.(s := s, pc := pc)
    case ServiceSnapshot(index) => node.(s := TakeSnapshot(node.s, index, truth.image(index)))
    case Install(a) => node.(s := InstallSnapshot(node.s, a))
    case Handle(e) => node.(s := React(node.s, e))
  }

  /** A server started from a disk whose snapshot and log agree with the committed log. */
  ghost predicate Initial(truth: Truth, base: nat, node: Node) {
    && node.pc == Asleep && node.stream == []
    && node.s.isSnapshotApplied && node.s.lastApplied == node.s.commitIndex == node.s.snapshotLastIndex == base
    && Agrees(truth, node.s)
  }

  ghost predicate StepAt(truth: Truth, base: nat, nodes: seq<Node>, steps: seq<Step>, k: nat)
    requires k < |steps| && |nodes| == |steps| + 1
  {
    Enabled(truth, base, nodes[k], steps[k])
    && (Safe(truth, base, nodes[k], steps[k]) ==> nodes[k + 1] == Apply(truth, base, nodes[k], steps[k]))
  }

  ghost predicate IsRun(truth: Truth, base: nat, nodes: seq<Node>, steps: seq<Step>) {
    && |nodes| == |steps| + 1
    && Initial(truth, base, nodes[0])
    && forall k {:trigger StepAt(truth, base, nodes, steps, k)} :: 0 <= k < |steps| ==> StepAt(truth, base, nodes, steps, k)
  }

  // ----- what the service sees -----

  /** A command continues where the service is, with the committed command; a snapshot is the
      service's own image at its index. */
  ghost predicate Follows(truth: Truth, last: nat, m: Msg) {
    match m
    case Command(index, command) => index == last + 1 && command == truth.entry(index).command
    case Restore(index, term, data) => term == truth.entry(index).term && data == truth.image(index)
  }

  ghost predicate Contiguous(truth: Truth, base: nat, stream: seq<Msg>) {
    forall k :: 0 <= k < |stream| ==> Follows(truth, Last(base, stream[..k]), stream[k])
  }

  // ----- the invariant -----

  ghost predicate LoopOk(truth: Truth, base: nat, node: Node) {
    var s, last := node.s, Last(base, node.stream);
    && last <= s.commitIndex && s.lastApplied <= s.commitIndex
    && (s.isSnapshotApplied ==> s.snapshotLastIndex <= s.lastApplied)
    && match node.pc
       case Asleep => s.isSnapshotApplied ==> s.lastApplied == last
       case Sending(m) =>
         && Follows(truth, last, m) && s.lastApplied == m.index
         && (m.Restore? ==> !s.isSnapshotApplied)
         && (m.Command? && s.isSnapshotApplied ==> s.snapshotLastIndex <= last)
       case Sent(m) =>
         && s.lastApplied == m.index == last
         && (m.Restore? ==> !s.isSnapshotApplied)
  }

  ghost predicate Inv(truth: Truth, base: nat, node: Node) {
    && Agrees(truth, node.s)
    && (node.s.snapshotLastIndex > base ==>
          && node.s.snapshotLastTerm == truth.entry(node.s.snapshotLastIndex).term
          && node.s.snapshot == truth.image(node.s.snapshotLastIndex))
    && (node.s.snapshotLastIndex == base ==> node.s.isSnapshotApplied)
    && base <= node.s.snapshotLastIndex
    && LoopOk(truth, base, node)
    && Contiguous(truth, base, node.stream)
  }

  /** Message handlers leave the apply loop's fields and the snapshot alone. */
  lemma ReactKeeps(s: Server, e: Event)
    requires CanReact(s, e)
    ensures var t := React(s, e);
            && t.lastApplied == s.lastApplied && t.isSnapshotApplied == s.isSnapshotApplied
            && t.snapshotLastIndex == s.snapshotLastIndex && t.snapshotLastTerm == s.snapshotLastTerm
            && t.snapshot == s.snapshot
  {
  }

  /** A snapshot of the service at what it received last trims only what is committed. */
  lemma TakeSnapshotKeeps(truth: Truth, s: Server, index: nat)
    requires Agrees(truth, s) && index <= s.commitIndex
    ensures Agrees(truth, TakeSnapshot(s, index, truth.image(index)))
    ensures s.snapshotLastIndex < index ==>
              TakeSnapshot(s, index, truth.image(index)).snapshotLastTerm == truth.entry(index).term
  {
    var t := TakeSnapshot(s, index, truth.image(index));
    if s.snapshotLastIndex < index {
      forall k | t.snapshotLastIndex < k <= t.commitIndex ensures At(t, k) == truth.entry(k) {
        assert At(t, k) == At(s, k);
      }
    }
  }

  /** A snapshot from the leader keeps the committed tail, or replaces a log that ends before it. */
  lemma InstallKeeps(truth: Truth, s: Server, a: InstallArgs)
    requires Agrees(truth, s) && a.lastIncludedTerm == truth.entry(a.lastIncludedIndex).term
    ensures Agrees(truth, InstallSnapshot(s, a))
  {
    var t := InstallSnapshot(s, a);
    if t != s {
      forall k | t.snapshotLastIndex < k <= t.commitIndex ensures At(t, k) == truth.entry(k) {
        assert At(s, a.lastIncludedIndex) == truth.entry(a.lastIncludedIndex);
        assert At(t, k) == At(s, k);
      }
    }
  }

  lemma ContiguousMore(truth: Truth, base: nat, stream: seq<Msg>, m: Msg)
    requires Contiguous(truth, base, stream) && Follows(truth, Last(base, stream), m)
    ensures Contiguous(truth, base, stream + [m])
  {
    var more := stream + [m];
    forall k | 0 <= k < |more| ensures Follows(truth, Last(base, more[..k]), more[k]) {
      assert more[..k] == stream[..k];
      if k == |stream| { assert stream[..k] == stream; }
    }
  }

  lemma ProceedKeepsInv(truth: Truth, base: nat, node: Node)
    requires Inv(truth, base, node.(pc := Asleep))
    ensures LookupOk(node.s)
    ensures var (s, pc) := Proceed(node.s); Inv(truth, base, node.(s := s, pc := pc))
  {
  }

  lemma ResumeKeepsInv(truth: Truth, base: nat, node: Node)
    requires Inv(truth, base, node) && node.pc.Sent?
    ensures LookupOk(Noted(node.s, node.pc.msg))
    ensures var (s, pc) := AfterSend(node.s, node.pc.msg); Inv(truth, base, node.(s := s, pc := pc))
  {
    ProceedKeepsInv(truth, base, node.(s := Noted(node.s, node.pc.msg)));
  }

  lemma DeliverKeepsInv(truth: Truth, base: nat, node: Node)
    requires Inv(truth, base, node) && node.pc.Sending?
    ensures Inv(truth, base, node.(pc := Sent(node.pc.msg), stream := node.stream + [node.pc.msg]))
  {
    ContiguousMore(truth, base, node.stream, node.pc.msg);
  }

  lemma SnapshotKeepsInv(truth: Truth, base: nat, node: Node)
    requires Inv(truth, base, node)
    ensures var index := Last(base, node.stream);
            index < LogLength(node.s)
            && Inv(truth, base, node.(s := TakeSnapshot(node.s, index, truth.image(index))))
  {
    TakeSnapshotKeeps(truth, node.s, Last(base, node.stream));
  }

  lemma InstallKeepsInv(truth: Truth, base: nat, node: Node, a: InstallArgs)
    requires Inv(truth, base, node)
    requires a.lastIncludedTerm == truth.entry(a.lastIncludedIndex).term && a.data == truth.image(a.lastIncludedIndex)
    ensures Inv(truth, base, node.(s := InstallSnapshot(node.s, a)))
  {
    InstallKeeps(truth, node.s, a);
  }

  lemma StepKeepsInv(truth: Truth, base: nat, node: Node, step: Step)
    requires Inv(truth, base, node) && Enabled(truth, base, node, step)
    ensures Safe(truth, base, node, step) && Inv(truth, base, Apply(truth, base, node, step))
  {
    match step
    case Wake => assert node.(pc := Asleep) == node; ProceedKeepsInv(truth, base, node);
    case Deliver => DeliverKeepsInv(truth, base, node);
    case Resume => ResumeKeepsInv(truth, base, node);
    case ServiceSnapshot(index) => SnapshotKeepsInv(truth, base, node);
    case Install(a) => InstallKeepsInv(truth, base, node, a);
    case Handle(e) => ReactKeeps(node.s, e);
  }

  lemma {:induction false} RunKeepsInv(truth: Truth, base: nat, nodes: seq<Node>, steps: seq<Step>, k: nat)
    requires IsRun(truth, base, nodes, steps) && k <= |steps|
    ensures Inv(truth, base, nodes[k])
    ensures k < |steps| ==> Enabled(truth, base, nodes[k], steps[k]) && Safe(truth, base, nodes[k], steps[k])
  {
    if k > 0 {
      RunKeepsInv(truth, base, nodes, steps, k - 1);
      assert StepAt(truth, base, nodes, steps, k - 1);
      StepKeepsInv(truth, base, nodes[k - 1], steps[k - 1]);
    }
    if k < |steps| {
      assert StepAt(truth, base, nodes, steps, k);
      StepKeepsInv(truth, base, nodes[k], steps[k]);
    }
  }

  /** Apply stream contiguity: whatever runs between the sends, every command the service receives
      has the index after the last command or snapshot it received and is the committed one, every
      snapshot is its own at that index, nothing uncommitted is delivered, and no log access is out
      of range. */
  lemma ApplyStreamContiguous(truth: Truth, base: nat, nodes: seq<Node>, steps: seq<Step>, k: nat)
    requires IsRun(truth, base, nodes, steps) && k <= |steps|
    ensures Contiguous(truth, base, nodes[k].stream)
    ensures Last(base, nodes[k].stream) <= nodes[k].s.commitIndex
    ensures k < |steps| ==> Enabled(truth, base, nodes[k], steps[k]) && Safe(truth, base, nodes[k], steps[k])
  {
    RunKeepsInv(truth, base, nodes, steps, k);
  }

  // ----- nothing is left behind -----

  /** A run with one more step. */
  lemma OneMore(truth: Truth, base: nat, nodes: seq<Node>, steps: seq<Step>, step: Step)
    returns (nodes': seq<Node>, steps': seq<Step>)
    requires IsRun(truth, base, nodes, steps)
    requires Enabled(truth, base, nodes[|steps|], step) && Safe(truth, base, nodes[|steps|], step)
    ensures IsRun(truth, base, nodes', steps') && |steps'| == |steps| + 1 && nodes <= nodes' && steps' == steps + [step]
    ensures nodes'[|steps'|] == Apply(truth, base, nodes[|steps|], step)
  {
    nodes', steps' := nodes + [Apply(truth, base, nodes[|steps|], step)], steps + [step];
    forall k | 0 <= k < |steps'| ensures StepAt(truth, base, nodes', steps', k) {
      if k < |steps| { assert StepAt(truth, base, nodes, steps, k); }
    }
  }

  /** The service has received everything that is committed, and no snapshot is waiting for it. */
  predicate CaughtUp(base: nat, node: Node) {
    node.pc == Asleep && node.s.isSnapshotApplied && Last(base, node.stream) == node.s.commitIndex
  }

  /** What the loop does next when nothing else happens. */
  function Turn(pc: Pc): Step {
    match pc
    case Asleep => Wake
    case Sending(_) => Deliver
    case Sent(_) => Resume
  }

  /** How far the loop is from having delivered a waiting snapshot. */
  function Overdue(node: Node): nat {
    if node.s.isSnapshotApplied then 0
    else if node.pc == Asleep then 2
    else if node.pc.msg.Restore? && node.pc.msg.index == node.s.snapshotLastIndex then 1
    else 3
  }

  function Rank(pc: Pc): nat {
    match pc
    case Asleep => 0
    case Sending(_) => 2
    case Sent(_) => 1
  }

  predicate Before(x: (nat, nat, nat), y: (nat, nat, nat)) {
    x.0 < y.0 || (x.0 == y.0 && (x.1 < y.1 || (x.1 == y.1 && x.2 < y.2)))
  }

  function Distance(node: Node): (nat, nat, nat) {
    (Overdue(node), if node.s.lastApplied <= node.s.commitIndex then node.s.commitIndex - node.s.lastApplied else 0, Rank(node.pc))
  }

  lemma WakeIsCloser(truth: Truth, base: nat, node: Node)
    requires Inv(truth, base, node) && !CaughtUp(base, node) && node.pc.Asleep?
    ensures LookupOk(node.s) && Before(Distance(Apply(truth, base, node, Wake)), Distance(node))
  {
  }

  lemma ResumeIsCloser(truth: Truth, base: nat, node: Node)
    requires Inv(truth, base, node) && node.pc.Sent?
    ensures LookupOk(Noted(node.s, node.pc.msg)) && Before(Distance(Apply(truth, base, node, Resume)), Distance(node))
  {
  }

  lemma TurnIsCloser(truth: Truth, base: nat, node: Node)
    requires Inv(truth, base, node) && !CaughtUp(base, node)
    ensures Enabled(truth, base, node, Turn(node.pc)) && Safe(truth, base, node, Turn(node.pc))
    ensures var node' := Apply(truth, base, node, Turn(node.pc));
            && Inv(truth, base, node') && Before(Distance(node'), Distance(node))
            && node'.s.commitIndex == node.s.commitIndex && node'.s.log == node.s.log
  {
    StepKeepsInv(truth, base, node, Turn(node.pc));
    match node.pc
    case Asleep => WakeIsCloser(truth, base, node);
    case Sending(_) =>
    case Sent(_) => ResumeIsCloser(truth, base, node);
  }

  /** Left alone, the loop catches up: from every state of every run its own turns lead to where the service has
      received every committed command and the snapshot it was waiting for. */
  lemma {:induction false} CatchesUp(truth: Truth, base: nat, nodes: seq<Node>, steps: seq<Step>)
    returns (nodes': seq<Node>, steps': seq<Step>)
    requires IsRun(truth, base, nodes, steps)
    ensures IsRun(truth, base, nodes', steps') && nodes <= nodes' && steps <= steps'
    ensures forall k :: |steps| <= k < |steps'| ==> steps'[k] == Turn(nodes'[k].pc)
    ensures CaughtUp(base, nodes'[|steps'|]) && nodes'[|steps'|].s.commitIndex == nodes[|steps|].s.commitIndex
    decreases Distance(nodes[|steps|]).0, Distance(nodes[|steps|]).1, Distance(nodes[|steps|]).2
  {
    var node := nodes[|steps|];
    RunKeepsInv(truth, base, nodes, steps, |steps|);
    nodes', steps' := nodes, steps;
    if !CaughtUp(base, node) {
      TurnIsCloser(truth, base, node);
      nodes', steps' := OneMore(truth, base, nodes, steps, Turn(node.pc));
      nodes', steps' := CatchesUp(truth, base, nodes', steps');
      assert nodes'[|steps|] == node;
    }
  }
}
