/** The replicated state machine of `src/kvraft1/rsm/rsm.go` over the key/value service of
    `src/kvraft1/server.go`: the service's map is the replay of the committed log, and `Submit`
    returns the result of its own request. */
module Rsm {
  import opened KeyValue
  import RaftServer
  import A = RaftApply
  import O = RaftOutcomes
  import RaftObject

  /** A request with the name of its submission. */
  datatype Op = Op(req: Input, id: nat, me: nat)

  /** `labgob` encoding, as far as it matters: commands decode to operations, snapshots to maps. */
  datatype Codec = Codec(op: RaftServer.Command -> Op, store: RaftServer.Snapshot -> Store)

  /** The committed log with its operations. */
  function OpAt(codec: Codec, truth: A.Truth, i: nat): Op {
    codec.op(truth.entry(i).command)
  }

  /** The map after the first `k` committed operations. */
  function Replay(codec: Codec, truth: A.Truth, k: nat): Store {
    if k == 0 then map[] else Execute(Replay(codec, truth, k - 1), OpAt(codec, truth, k).req).0
  }

  /** `Restore` decodes into the map the server already has: `labgob` merges. */
  function Restored(kv: Store, snapshot: Store): Store {
    kv + snapshot
  }

  /** What one message from Raft does to the map: `applyCommand` or `Restore`. */
  function Received(codec: Codec, kv: Store, m: A.Msg): Store {
    match m
    case Command(_, command) => Execute(kv, codec.op(command).req).0
    case Restore(_, _, data) => Restored(kv, codec.store(data))
  }

  function ReceivedAll(codec: Codec, kv: Store, stream: seq<A.Msg>): Store {
    if stream == [] then kv else Received(codec, ReceivedAll(codec, kv, stream[..|stream| - 1]), stream[|stream| - 1])
  }

  // ----- merging -----

  /** A restore gives exactly the snapshot when, and only when, the map has no key the snapshot lacks. */
  lemma RestoreExactIff(kv: Store, snapshot: Store)
    ensures Restored(kv, snapshot) == snapshot <==> kv.Keys <= snapshot.Keys
  {
    var merged := Restored(kv, snapshot);
    assert merged.Keys == kv.Keys + snapshot.Keys;
    if kv.Keys <= snapshot.Keys { assert merged == snapshot; }
  }

  lemma ExecuteKeepsKeys(kv: Store, inp: Input)
    ensures kv.Keys <= Execute(kv, inp).0.Keys
  {
    if inp.Write? { PutEffect(kv, inp.key, inp.value, inp.version); }
  }

  lemma {:induction false} KeysGrow(codec: Codec, truth: A.Truth, i: nat, j: nat)
    requires i <= j
    ensures Replay(codec, truth, i).Keys <= Replay(codec, truth, j).Keys
    decreases j
  {
    if i < j {
      KeysGrow(codec, truth, i, j - 1);
      ExecuteKeepsKeys(Replay(codec, truth, j - 1), OpAt(codec, truth, j).req);
    }
  }

  // ----- replay -----

  /** The snapshots are what `Snapshot` writes: the encoded map at their index. */
  ghost predicate SnapshotsFaithful(codec: Codec, truth: A.Truth) {
    forall i :: codec.store(truth.image(i)) == Replay(codec, truth, i)
  }

  /** The message does not go back to a snapshot that lacks a key created since. */
  predicate Exact(codec: Codec, truth: A.Truth, last: nat, m: A.Msg) {
    m.Restore? ==> Replay(codec, truth, last).Keys <= Replay(codec, truth, m.index).Keys
  }

  /** A message that follows takes the replay to the message's index if and only if it is exact. */
  lemma MessageReplaysIff(codec: Codec, truth: A.Truth, last: nat, m: A.Msg)
    requires SnapshotsFaithful(codec, truth) && A.Follows(truth, last, m)
    ensures Received(codec, Replay(codec, truth, last), m) == Replay(codec, truth, m.index) <==> Exact(codec, truth, last, m)
  {
    if m.Restore? { RestoreExactIff(Replay(codec, truth, last), Replay(codec, truth, m.index)); }
  }

  /** The map after the first `k` messages. */
  function MapAfter(codec: Codec, truth: A.Truth, base: nat, stream: seq<A.Msg>, k: nat): Store
    requires k <= |stream|
  {
    ReceivedAll(codec, Replay(codec, truth, base), stream[..k])
  }

  /** After the first `k` messages the map is the replay of the committed log up to the last of them. */
  predicate ReplayAt(codec: Codec, truth: A.Truth, base: nat, stream: seq<A.Msg>, k: nat)
    requires k <= |stream|
  {
    MapAfter(codec, truth, base, stream, k) == Replay(codec, truth, A.Last(base, stream[..k]))
  }

  predicate ExactAt(codec: Codec, truth: A.Truth, base: nat, stream: seq<A.Msg>, k: nat)
    requires k < |stream|
  {
    Exact(codec, truth, A.Last(base, stream[..k]), stream[k])
  }

  lemma OneMessage(codec: Codec, truth: A.Truth, base: nat, stream: seq<A.Msg>, k: nat)
    requires k < |stream|
    ensures MapAfter(codec, truth, base, stream, k + 1) == Received(codec, MapAfter(codec, truth, base, stream, k), stream[k])
    ensures A.Last(base, stream[..k + 1]) == stream[k].index
  {
    assert stream[..k + 1][..k] == stream[..k];
  }

  /** Where the map is the replay, the next message keeps it so exactly when it is exact. */
  lemma NextReplays(codec: Codec, truth: A.Truth, base: nat, stream: seq<A.Msg>, k: nat)
    requires SnapshotsFaithful(codec, truth) && A.Contiguous(truth, base, stream) && k < |stream|
    requires ReplayAt(codec, truth, base, stream, k)
    ensures ReplayAt(codec, truth, base, stream, k + 1) <==> ExactAt(codec, truth, base, stream, k)
  {
    OneMessage(codec, truth, base, stream, k);
    MessageReplaysIff(codec, truth, A.Last(base, stream[..k]), stream[k]);
  }

  lemma {:induction false} ExactReplays(codec: Codec, truth: A.Truth, base: nat, stream: seq<A.Msg>, k: nat)
    requires SnapshotsFaithful(codec, truth) && A.Contiguous(truth, base, stream) && k <= |stream|
    requires forall j :: 0 <= j < k ==> ExactAt(codec, truth, base, stream, j)
    ensures ReplayAt(codec, truth, base, stream, k)
  {
    if k > 0 {
      ExactReplays(codec, truth, base, stream, k - 1);
      NextReplays(codec, truth, base, stream, k - 1);
    }
  }

  /** Over every stream the apply loop can produce: the map is always the replay of the committed log
      up to the last message if and only if no snapshot lacks a key created since. */
  lemma MapIsReplayIff(codec: Codec, truth: A.Truth, base: nat, stream: seq<A.Msg>)
    requires SnapshotsFaithful(codec, truth) && A.Contiguous(truth, base, stream)
    ensures (forall k :: 0 <= k <= |stream| ==> ReplayAt(codec, truth, base, stream, k))
            <==> (forall k :: 0 <= k < |stream| ==> ExactAt(codec, truth, base, stream, k))
  {
    if forall k :: 0 <= k < |stream| ==> ExactAt(codec, truth, base, stream, k) {
      forall k | 0 <= k <= |stream| ensures ReplayAt(codec, truth, base, stream, k) {
        ExactReplays(codec, truth, base, stream, k);
      }
    } else {
      var k :| 0 <= k < |stream| && !ExactAt(codec, truth, base, stream, k);
      if ReplayAt(codec, truth, base, stream, k) { NextReplays(codec, truth, base, stream, k); }
    }
  }

  /** In every run of the server and its apply loop, the service's map has always been the replay of the
      committed log up to the index received last if and only if every snapshot it received had all the
      keys it knew. */
  lemma ServiceIsReplay(codec: Codec, truth: A.Truth, base: nat, nodes: seq<A.Node>, steps: seq<A.Step>, k: nat)
    requires A.IsRun(truth, base, nodes, steps) && k <= |steps| && SnapshotsFaithful(codec, truth)
    ensures var stream := nodes[k].stream;
            (forall j :: 0 <= j <= |stream| ==> ReplayAt(codec, truth, base, stream, j))
            <==> (forall j :: 0 <= j < |stream| ==> ExactAt(codec, truth, base, stream, j))
  {
    A.ApplyStreamContiguous(truth, base, nodes, steps, k);
    MapIsReplayIff(codec, truth, base, nodes[k].stream);
  }

  /** A snapshot that does not go back is exact, because keys are never removed. */
  lemma NewerIsExact(codec: Codec, truth: A.Truth, last: nat, m: A.Msg)
    requires m.Restore? ==> last <= m.index
    ensures Exact(codec, truth, last, m)
  {
    if m.Restore? { KeysGrow(codec, truth, last, m.index); }
  }

  /** One that goes back is exact if and only if no key was created in between. */
  lemma OlderSnapshotExactIff(codec: Codec, truth: A.Truth, older: nat, newer: nat)
    requires older <= newer
    ensures Restored(Replay(codec, truth, newer), Replay(codec, truth, older)) == Replay(codec, truth, older)
            <==> Replay(codec, truth, newer).Keys == Replay(codec, truth, older).Keys
  {
    RestoreExactIff(Replay(codec, truth, newer), Replay(codec, truth, older));
    KeysGrow(codec, truth, older, newer);
  }

  // ----- a snapshot that goes back -----

  /** The committed log that creates key "a" and then key "b". */
  function TwoKeys(): A.Truth {
    A.Truth((i: nat) => RaftServer.Entry(1, if i == 1 then "a" else "b"), (i: nat) => seq(i, _ => 'x'))
  }

  /** A command is the key it creates; a snapshot is as long as its index. */
  function Creates(): RaftServer.Command -> Op {
    command => Op(Write(command, "", 0), 0, 0)
  }

  function TwoKeysCodec(): Codec {
    Codec(Creates(), data => Replay(Codec(Creates(), _ => map[]), TwoKeys(), |data|))
  }

  lemma {:induction false} ReplayIgnoresStore(op: RaftServer.Command -> Op, f: RaftServer.Snapshot -> Store,
                                              g: RaftServer.Snapshot -> Store, truth: A.Truth, k: nat)
    ensures Replay(Codec(op, f), truth, k) == Replay(Codec(op, g), truth, k)
  {
    if k > 0 { ReplayIgnoresStore(op, f, g, truth, k - 1); }
  }

  lemma TwoKeysFaithful()
    ensures SnapshotsFaithful(TwoKeysCodec(), TwoKeys())
  {
    var codec := TwoKeysCodec();
    forall i: nat ensures codec.store(TwoKeys().image(i)) == Replay(codec, TwoKeys(), i) {
      ReplayIgnoresStore(Creates(), codec.store, _ => map[], TwoKeys(), i);
    }
  }

  function FreshNode(): A.Node {
    A.Node(RaftServer.Boot(0, 1, RaftServer.BlankDisk()), A.Asleep, [])
  }

  /** A command is sent, delivered, and the loop takes the lock again. */
  lemma SendAndResume(truth: A.Truth, base: nat, nodes: seq<A.Node>, steps: seq<A.Step>)
    returns (nodes': seq<A.Node>, steps': seq<A.Step>)
    requires A.IsRun(truth, base, nodes, steps) && nodes[|steps|].pc.Sending? && nodes[|steps|].pc.msg.Command?
    requires nodes[|steps|].s.isSnapshotApplied && A.LookupOk(nodes[|steps|].s)
    ensures A.IsRun(truth, base, nodes', steps')
    ensures var node, node' := nodes[|steps|], nodes'[|steps'|];
            && node'.stream == node.stream + [node.pc.msg]
            && (node'.s, node'.pc) == A.Proceed(node.s)
  {
    nodes', steps' := A.OneMore(truth, base, nodes, steps, A.Deliver);
    nodes', steps' := A.OneMore(truth, base, nodes', steps', A.Resume);
  }

  /** The server's part of the state that matters here. */
  predicate Holding(node: A.Node, commit: nat, applied: nat) {
    && node.s.currentTerm == 1 && node.s.snapshotLastIndex == 0 && node.s.isSnapshotApplied
    && node.s.log == [RaftServer.Sentinel(0), RaftServer.Entry(1, "a"), RaftServer.Entry(1, "b")]
    && node.s.commitIndex == commit && node.s.lastApplied == applied
  }

  /** Both entries arrive committed. */
  lemma BothArrive() returns (nodes: seq<A.Node>, steps: seq<A.Step>)
    ensures A.IsRun(TwoKeys(), 0, nodes, steps)
    ensures Holding(nodes[|steps|], 2, 0) && nodes[|steps|].pc == A.Asleep && nodes[|steps|].stream == []
  {
    var s0 := RaftServer.Boot(0, 1, RaftServer.BlankDisk());
    nodes, steps := [A.Node(s0, A.Asleep, [])], [];
    var entries := [RaftServer.Entry(1, "a"), RaftServer.Entry(1, "b")];
    var args := RaftServer.AppendArgs(1, 0, 2, 0, 0, entries);
    var s1 := RaftServer.AppendEntries(s0, args).0;
    assert s1.log == [RaftServer.Sentinel(0)] + entries && s1.commitIndex == 2;
    nodes, steps := A.OneMore(TwoKeys(), 0, nodes, steps, A.Handle(A.Append(args)));
  }

  /** And both are delivered. */
  lemma BothDelivered() returns (nodes: seq<A.Node>, steps: seq<A.Step>)
    ensures A.IsRun(TwoKeys(), 0, nodes, steps)
    ensures Holding(nodes[|steps|], 2, 2) && nodes[|steps|].pc == A.Asleep
    ensures nodes[|steps|].stream == [A.Command(1, "a"), A.Command(2, "b")]
  {
    nodes, steps := BothArrive();
    nodes, steps := A.OneMore(TwoKeys(), 0, nodes, steps, A.Wake);
    assert Holding(nodes[|steps|], 2, 1) && nodes[|steps|].pc == A.Sending(A.Command(1, "a"));
    nodes, steps := SendAndResume(TwoKeys(), 0, nodes, steps);
    assert Holding(nodes[|steps|], 2, 2) && nodes[|steps|].pc == A.Sending(A.Command(2, "b"));
    nodes, steps := SendAndResume(TwoKeys(), 0, nodes, steps);
  }

  /** A snapshot of the first arrives after them, and `InstallSnapshot` lets it through. */
  lemma OlderInstalled() returns (nodes: seq<A.Node>, steps: seq<A.Step>)
    ensures A.IsRun(TwoKeys(), 0, nodes, steps)
    ensures nodes[|steps|].stream == [A.Command(1, "a"), A.Command(2, "b")] && nodes[|steps|].pc == A.Asleep
    ensures var s := nodes[|steps|].s;
            !s.isSnapshotApplied && s.snapshotLastIndex == 1 && s.snapshotLastTerm == 1 && s.snapshot == "x"
  {
    nodes, steps := BothDelivered();
    assert TwoKeys().image(1) == "x";
    nodes, steps := A.OneMore(TwoKeys(), 0, nodes, steps, A.Install(RaftServer.InstallArgs(1, 0, 1, 1, "x")));
  }

  lemma OlderDelivered() returns (nodes: seq<A.Node>, steps: seq<A.Step>)
    ensures A.IsRun(TwoKeys(), 0, nodes, steps)
    ensures nodes[|steps|].stream == [A.Command(1, "a"), A.Command(2, "b"), A.Restore(1, 1, "x")]
  {
    nodes, steps := OlderInstalled();
    nodes, steps := A.OneMore(TwoKeys(), 0, nodes, steps, A.Wake);
    nodes, steps := A.OneMore(TwoKeys(), 0, nodes, steps, A.Deliver);
  }

  /** After commands only, a snapshot that is not exact breaks the replay. */
  lemma InexactBreaks(codec: Codec, truth: A.Truth, base: nat, stream: seq<A.Msg>, k: nat)
    requires SnapshotsFaithful(codec, truth) && A.Contiguous(truth, base, stream) && k < |stream|
    requires (forall j :: 0 <= j < k ==> stream[j].Command?) && !ExactAt(codec, truth, base, stream, k)
    ensures !ReplayAt(codec, truth, base, stream, k + 1)
  {
    ExactReplays(codec, truth, base, stream, k);
    NextReplays(codec, truth, base, stream, k);
  }

  /** The apply loop goes back: a run in which the service has applied index 2 and then receives the
      snapshot of index 1; its map is then no replay. */
  lemma GoesBack() returns (nodes: seq<A.Node>, steps: seq<A.Step>)
    ensures A.IsRun(TwoKeys(), 0, nodes, steps) && SnapshotsFaithful(TwoKeysCodec(), TwoKeys())
    ensures nodes[|steps|].stream == [A.Command(1, "a"), A.Command(2, "b"), A.Restore(1, 1, "x")]
    ensures !ReplayAt(TwoKeysCodec(), TwoKeys(), 0, nodes[|steps|].stream, 3)
  {
    var codec, truth := TwoKeysCodec(), TwoKeys();
    nodes, steps := OlderDelivered();
    var stream := nodes[|steps|].stream;
    TwoKeysFaithful();
    TwoKeysReplay();
    A.ApplyStreamContiguous(truth, 0, nodes, steps, |steps|);
    assert A.Last(0, stream[..2]) == stream[1].index;
    InexactBreaks(codec, truth, 0, stream, 2);
  }

  lemma TwoKeysReplay()
    ensures "b" !in Replay(TwoKeysCodec(), TwoKeys(), 1) && "b" in Replay(TwoKeysCodec(), TwoKeys(), 2)
  {
    var codec, truth := TwoKeysCodec(), TwoKeys();
    assert Replay(codec, truth, 0) == map[];
    assert Replay(codec, truth, 1) == Execute(map[], Write("a", "", 0)).0;
  }

  // ----- Submit -----

  /** `Key` in the source: a submission and the log index `Start` gave it. */
  datatype Key = Key(id: nat, me: nat, index: nat)

  /** A result channel is open until its reader leaves; the first result put into it is the one read. */
  datatype Channel = Waiting | Ready(result: Output)

  datatype Server = Server(me: nat, id: nat, results: map<Key, Channel>, kv: Store)

  /** The first region of `Submit`: a new id, and a channel if `Start` accepted the operation. */
  function Register(s: Server, started: RaftServer.Started): Server {
    var s1 := s.(id := s.id + 1);
    if started.isLeader then s1.(results := s.results[Key(s.id, s.me, started.index) := Waiting]) else s1
  }

  /** `applyCommand`: execute, then hand the result to whoever waits for this operation at this index. */
  function Executed(s: Server, op: Op, index: nat): Server {
    var (kv, out) := Execute(s.kv, op.req);
    var key := Key(op.id, op.me, index);
    s.(kv := kv, results := if key in s.results && s.results[key].Waiting? then s.results[key := Ready(out)] else s.results)
  }

  /** What a turn of the loop in `Submit` gives: nothing yet, the result, or `ErrWrongLeader`. */
  datatype Outcome = NotYet | Answered(result: Output) | WrongLeader

  /** One turn: a result ends the loop, and so does having lost the leadership; either way the channel goes. */
  function Polled(s: Server, key: Key, leading: bool): (Server, Outcome)
    requires key in s.results
  {
    var gone := s.(results := s.results - {key});
    match s.results[key]
    case Ready(result) => (gone, Answered(result))
    case Waiting => if leading then (s, NotYet) else (gone, WrongLeader)
  }

  /** An operation in the log of a leader, at an absolute index. */
  datatype Placed = Placed(index: nat, op: Op)

  /** A server, what it has submitted under each id, where operations of anyone were put into a log, and what
      Raft has delivered to it. */
  datatype World = World(s: Server, submitted: seq<Input>, placed: set<Placed>, stream: seq<A.Msg>)

  datatype Step =
    | Submit(req: Input, raft: RaftServer.Server, command: RaftServer.Command)   // with Raft as it is then
    | Foreign(at: Placed)                                                        // by another server
    | Message(m: A.Msg)
    | Poll(key: Key, leading: bool)

  /** What a `Start` has put into the log: all that was not there before. */
  function NewlyPlaced(codec: Codec, raft: RaftServer.Server, raft': RaftServer.Server): set<Placed> {
    set i | RaftServer.LogLength(raft) <= i < RaftServer.LogLength(raft') && raft'.snapshotLastIndex <= i ::
      Placed(i, codec.op(RaftServer.At(raft', i).command))
  }

  /** The apply loop delivers messages that follow, and an operation only from where it was put. */
  ghost predicate Enabled(codec: Codec, truth: A.Truth, base: nat, w: World, step: Step) {
    match step
    case Submit(req, raft, command) => RaftServer.WellFormed(raft) && codec.op(command) == Op(req, w.s.id, w.s.me)
    case Foreign(at) => at.op.me != w.s.me
    case Message(m) =>
      A.Follows(truth, A.Last(base, w.stream), m) && (m.Command? ==> Placed(m.index, codec.op(m.command)) in w.placed)
    case Poll(key, _) => key in w.s.results
  }

  function Apply(codec: Codec, w: World, step: Step): World
    requires step.Poll? ==> step.key in w.s.results
    requires step.Submit? ==> RaftServer.WellFormed(step.raft)
  {
    match step
    case Submit(req, raft, command) =>
      var (raft', started) := RaftServer.Start(raft, command);
      w.(s := Register(w.s, started), submitted := w.submitted + [req], placed := w.placed + NewlyPlaced(codec, raft, raft'))
    case Foreign(at) => w.(placed := w.placed + {at})
    case Message(m) =>
      var s := match m
               case Command(index, command) => Executed(w.s, codec.op(command), index)
               case Restore(_, _, data) => w.s.(kv := Restored(w.s.kv, codec.store(data)));
      w.(s := s, stream := w.stream + [m])
    case Poll(key, leading) => w.(s := Polled(w.s, key, leading).0)
  }

  /** A server that has just started at `base`; operations of others may be in logs already. */
  ghost predicate Initial(codec: Codec, truth: A.Truth, base: nat, w: World) {
    && w.submitted == [] && w.stream == [] && w.s.id == 0 && w.s.results == map[]
    && w.s.kv == Replay(codec, truth, base) && forall at :: at in w.placed ==> at.op.me != w.s.me
  }

  ghost predicate StepAt(codec: Codec, truth: A.Truth, base: nat, ws: seq<World>, steps: seq<Step>, k: nat)
    requires k < |steps| && |ws| == |steps| + 1
  {
    Enabled(codec, truth, base, ws[k], steps[k]) && ws[k + 1] == Apply(codec, ws[k], steps[k])
  }

  ghost predicate IsRun(codec: Codec, truth: A.Truth, base: nat, ws: seq<World>, steps: seq<Step>) {
    && |ws| == |steps| + 1 && Initial(codec, truth, base, ws[0])
    && forall k {:trigger StepAt(codec, truth, base, ws, steps, k)} ::
         0 <= k < |steps| ==> StepAt(codec, truth, base, ws, steps, k)
  }

  /** What was submitted under the key is message `p`, and this is its result on the map the messages
      before it gave. */
  predicate Served(codec: Codec, truth: A.Truth, base: nat, w: World, key: Key, result: Output, p: nat) {
    && p < |w.stream| && key.id < |w.submitted| && w.stream[p].Command? && w.stream[p].index == key.index
    && codec.op(w.stream[p].command) == Op(w.submitted[key.id], key.id, w.s.me)
    && result == Execute(MapAfter(codec, truth, base, w.stream, p), w.submitted[key.id]).1
  }

  /** Message `p` carries the operation submitted under the key. */
  predicate Arrived(codec: Codec, w: World, key: Key, p: nat) {
    && p < |w.stream| && key.id < |w.submitted| && w.stream[p].Command?
    && codec.op(w.stream[p].command) == Op(w.submitted[key.id], key.id, w.s.me)
  }

  /** An open channel has a result exactly if its operation has arrived, and the result is right. */
  ghost predicate ResultOk(codec: Codec, truth: A.Truth, base: nat, w: World, key: Key)
    requires key in w.s.results
  {
    && key.me == w.s.me && key.id < |w.submitted|
    && (w.s.results[key].Ready? ==> exists p :: Served(codec, truth, base, w, key, w.s.results[key].result, p))
    && (w.s.results[key].Waiting? ==> forall p {:trigger Arrived(codec, w, key, p)} :: !Arrived(codec, w, key, p))
    && forall at :: at in w.placed && at.op.me == key.me && at.op.id == key.id ==> at.index == key.index
  }

  /** An operation under this server's name is the one it submitted under that id: ids are never reused. */
  predicate OwnOp(w: World, op: Op) {
    op.me == w.s.me ==> op.id < |w.submitted| && op.req == w.submitted[op.id]
  }

  /** Every command delivered was put where it was delivered from. */
  predicate StreamPlaced(codec: Codec, w: World) {
    forall p {:trigger w.stream[p]} :: 0 <= p < |w.stream| && w.stream[p].Command? ==>
      Placed(w.stream[p].index, codec.op(w.stream[p].command)) in w.placed
  }

  ghost predicate Inv(codec: Codec, truth: A.Truth, base: nat, w: World) {
    && |w.submitted| == w.s.id && A.Contiguous(truth, base, w.stream)
    && w.s.kv == MapAfter(codec, truth, base, w.stream, |w.stream|)
    && (forall at {:trigger OwnOp(w, at.op)} :: at in w.placed ==> OwnOp(w, at.op))
    && StreamPlaced(codec, w)
    && forall key {:trigger ResultOk(codec, truth, base, w, key)} ::
         key in w.s.results ==> ResultOk(codec, truth, base, w, key)
  }

  /** Later submissions and messages do not touch what was served. */
  lemma ServedStays(codec: Codec, truth: A.Truth, base: nat, w: World, w': World, key: Key, result: Output, p: nat)
    requires Served(codec, truth, base, w, key, result, p)
    requires w.stream <= w'.stream && w.submitted <= w'.submitted && w'.s.me == w.s.me
    ensures Served(codec, truth, base, w', key, result, p)
  {
    assert w'.stream[..p] == w.stream[..p];
  }

  lemma ResultStays(codec: Codec, truth: A.Truth, base: nat, w: World, w': World, key: Key)
    requires key in w.s.results && ResultOk(codec, truth, base, w, key)
    requires w.stream <= w'.stream && w.submitted <= w'.submitted && w'.s.me == w.s.me
    requires key in w'.s.results && w'.s.results[key] == w.s.results[key]
    requires forall p {:trigger Arrived(codec, w', key, p)} :: |w.stream| <= p ==> !Arrived(codec, w', key, p)
    requires forall at :: at in w'.placed && at !in w.placed && at.op.me == key.me ==> at.op.id != key.id
    ensures ResultOk(codec, truth, base, w', key)
  {
    if w.s.results[key].Ready? {
      var result := w.s.results[key].result;
      var p :| Served(codec, truth, base, w, key, result, p);
      ServedStays(codec, truth, base, w, w', key, result, p);
    } else {
      forall p: nat ensures !Arrived(codec, w', key, p) { assert !Arrived(codec, w, key, p); }
    }
  }

  /** A message: the map moves on, and the operation's own reader gets the result. */
  lemma MessageKeepsInv(codec: Codec, truth: A.Truth, base: nat, w: World, m: A.Msg)
    requires Inv(codec, truth, base, w) && Enabled(codec, truth, base, w, Message(m))
    ensures Inv(codec, truth, base, Apply(codec, w, Message(m)))
  {
    var w' := Apply(codec, w, Message(m));
    MapMovesOn(codec, truth, base, w, m);
    StreamStaysPlaced(codec, w, m);
    forall at | at in w'.placed ensures OwnOp(w', at.op) { assert OwnOp(w, at.op); }
    forall key | key in w'.s.results ensures ResultOk(codec, truth, base, w', key) {
      MessageReaches(codec, truth, base, w, m, key);
    }
  }

  lemma StreamStaysPlaced(codec: Codec, w: World, m: A.Msg)
    requires StreamPlaced(codec, w) && (m.Command? ==> Placed(m.index, codec.op(m.command)) in w.placed)
    ensures StreamPlaced(codec, Apply(codec, w, Message(m)))
  {
  }

  lemma MapMovesOn(codec: Codec, truth: A.Truth, base: nat, w: World, m: A.Msg)
    requires A.Contiguous(truth, base, w.stream) && w.s.kv == MapAfter(codec, truth, base, w.stream, |w.stream|)
    requires A.Follows(truth, A.Last(base, w.stream), m)
    ensures var w' := Apply(codec, w, Message(m));
            && A.Contiguous(truth, base, w'.stream) && w'.s.kv == MapAfter(codec, truth, base, w'.stream, |w'.stream|)
            && w.s.kv == MapAfter(codec, truth, base, w'.stream, |w.stream|)
  {
    var w', n := Apply(codec, w, Message(m)), |w.stream|;
    A.ContiguousMore(truth, base, w.stream, m);
    OneMessage(codec, truth, base, w'.stream, n);
    assert w'.stream[..n] == w.stream && w.stream[..n] == w.stream;
  }

  /** An arrival finds its channel, because the channel is open under the index the operation was put at. */
  lemma MessageReaches(codec: Codec, truth: A.Truth, base: nat, w: World, m: A.Msg, key: Key)
    requires Inv(codec, truth, base, w) && Enabled(codec, truth, base, w, Message(m)) && key in w.s.results
    requires w.s.kv == MapAfter(codec, truth, base, Apply(codec, w, Message(m)).stream, |w.stream|)
    ensures ResultOk(codec, truth, base, Apply(codec, w, Message(m)), key)
  {
    var w' := Apply(codec, w, Message(m));
    var n := |w.stream|;
    assert ResultOk(codec, truth, base, w, key);
    if m.Command? { assert OwnOp(w, codec.op(m.command)) by { assert OwnOp(w, Placed(m.index, codec.op(m.command)).op); } }
    if w'.s.results[key] != w.s.results[key] {
      assert Served(codec, truth, base, w', key, w'.s.results[key].result, n);
    } else if w.s.results[key].Waiting? {
      forall p: nat | n <= p ensures !Arrived(codec, w', key, p) {}
      ResultStays(codec, truth, base, w, w', key);
    } else {
      var result := w.s.results[key].result;
      var p :| Served(codec, truth, base, w, key, result, p);
      ServedStays(codec, truth, base, w, w', key, result, p);
    }
  }

  /** A `Start` puts the operation at the index it returns, or nowhere. */
  lemma PlacedWhereSaid(codec: Codec, raft: RaftServer.Server, command: RaftServer.Command)
    requires RaftServer.WellFormed(raft)
    ensures var (raft', started) := RaftServer.Start(raft, command);
            NewlyPlaced(codec, raft, raft') == if started.isLeader then {Placed(started.index, codec.op(command))} else {}
  {
    var (raft', started) := RaftServer.Start(raft, command);
    O.StartOutcome(raft, command);
    if started.isLeader {
      assert Placed(started.index, codec.op(command)) in NewlyPlaced(codec, raft, raft');
    }
  }

  lemma SubmitKeepsInv(codec: Codec, truth: A.Truth, base: nat, w: World, step: Step)
    requires Inv(codec, truth, base, w) && step.Submit? && Enabled(codec, truth, base, w, step)
    ensures Inv(codec, truth, base, Apply(codec, w, step))
  {
    var w' := Apply(codec, w, step);
    PlacedWhereSaid(codec, step.raft, step.command);
    forall at | at in w'.placed ensures OwnOp(w', at.op) {
      if at in w.placed { assert OwnOp(w, at.op); }
    }
    forall key | key in w'.s.results ensures ResultOk(codec, truth, base, w', key) {
      if key in w.s.results {
        assert ResultOk(codec, truth, base, w, key);
        ResultStays(codec, truth, base, w, w', key);
      } else {
        forall at | at in w.placed ensures at.op.me == key.me ==> at.op.id != key.id { assert OwnOp(w, at.op); }
        forall p: nat ensures !Arrived(codec, w', key, p) {
          if p < |w.stream| && w.stream[p].Command? {
            assert Placed(w.stream[p].index, codec.op(w.stream[p].command)) in w.placed;
          }
        }
      }
    }
  }

  lemma StepKeepsInv(codec: Codec, truth: A.Truth, base: nat, w: World, step: Step)
    requires Inv(codec, truth, base, w) && Enabled(codec, truth, base, w, step)
    ensures Inv(codec, truth, base, Apply(codec, w, step)) && Apply(codec, w, step).s.me == w.s.me
  {
    var w' := Apply(codec, w, step);
    match step
    case Message(m) => MessageKeepsInv(codec, truth, base, w, m);
    case Submit(_, _, _) => SubmitKeepsInv(codec, truth, base, w, step);
    case _ =>
      forall at | at in w'.placed ensures OwnOp(w', at.op) {
        if at in w.placed { assert OwnOp(w, at.op); }
      }
      forall key | key in w'.s.results ensures ResultOk(codec, truth, base, w', key) {
        assert ResultOk(codec, truth, base, w, key);
        ResultStays(codec, truth, base, w, w', key);
      }
  }

  lemma {:induction false} RunKeepsInv(codec: Codec, truth: A.Truth, base: nat, ws: seq<World>, steps: seq<Step>, k: nat)
    requires IsRun(codec, truth, base, ws, steps) && k <= |steps|
    ensures Inv(codec, truth, base, ws[k])
    ensures k < |steps| ==> Enabled(codec, truth, base, ws[k], steps[k])
  {
    if k > 0 {
      RunKeepsInv(codec, truth, base, ws, steps, k - 1);
      assert StepAt(codec, truth, base, ws, steps, k - 1);
      StepKeepsInv(codec, truth, base, ws[k - 1], steps[k - 1]);
    }
    if k < |steps| { assert StepAt(codec, truth, base, ws, steps, k); }
  }

  /** A `Submit` that returns `OK` returns the result of its own request: the operation committed at its
      index is the one it submitted, executed on the map that the messages before it gave. */
  lemma SubmitReturnsOwnResult(codec: Codec, truth: A.Truth, base: nat, ws: seq<World>, steps: seq<Step>,
                               k: nat, key: Key, leading: bool) returns (p: nat)
    requires IsRun(codec, truth, base, ws, steps) && k < |steps| && steps[k] == Poll(key, leading)
    requires key in ws[k].s.results && Polled(ws[k].s, key, leading).1.Answered?
    ensures Served(codec, truth, base, ws[k], key, Polled(ws[k].s, key, leading).1.result, p)
    ensures OpAt(codec, truth, key.index) == Op(ws[k].submitted[key.id], key.id, ws[k].s.me)
  {
    RunKeepsInv(codec, truth, base, ws, steps, k);
    assert ResultOk(codec, truth, base, ws[k], key);
    p :| Served(codec, truth, base, ws[k], key, Polled(ws[k].s, key, leading).1.result, p);
    assert A.Follows(truth, A.Last(base, ws[k].stream[..p]), ws[k].stream[p]);
  }

  /** Nobody waits in vain: a turn of `Submit` gives the result if and only if the operation has arrived, and
      `ErrWrongLeader` if and only if it has not and the leadership is lost. */
  lemma SubmitAnsweredIff(codec: Codec, truth: A.Truth, base: nat, ws: seq<World>, steps: seq<Step>,
                          k: nat, key: Key, leading: bool)
    requires IsRun(codec, truth, base, ws, steps) && k <= |steps| && key in ws[k].s.results
    ensures var outcome := Polled(ws[k].s, key, leading).1;
            && (outcome.Answered? <==> exists p :: Arrived(codec, ws[k], key, p))
            && (outcome == WrongLeader <==> !leading && !exists p :: Arrived(codec, ws[k], key, p))
  {
    RunKeepsInv(codec, truth, base, ws, steps, k);
    assert ResultOk(codec, truth, base, ws[k], key);
    if ws[k].s.results[key].Ready? {
      var p :| Served(codec, truth, base, ws[k], key, ws[k].s.results[key].result, p);
      assert Arrived(codec, ws[k], key, p);
    }
  }

  /** While every snapshot received was exact, that map is the replay of the log before the operation. */
  lemma SubmitSeesReplay(codec: Codec, truth: A.Truth, base: nat, ws: seq<World>, steps: seq<Step>,
                         k: nat, key: Key, leading: bool)
    requires IsRun(codec, truth, base, ws, steps) && k < |steps| && steps[k] == Poll(key, leading)
    requires key in ws[k].s.results && Polled(ws[k].s, key, leading).1.Answered? && SnapshotsFaithful(codec, truth)
    requires forall j :: 0 <= j < |ws[k].stream| ==> ExactAt(codec, truth, base, ws[k].stream, j)
    ensures key.id < |ws[k].submitted| && key.index > 0
    ensures Polled(ws[k].s, key, leading).1.result
         == Execute(Replay(codec, truth, key.index - 1), ws[k].submitted[key.id]).1
  {
    var p := SubmitReturnsOwnResult(codec, truth, base, ws, steps, k, key, leading);
    RunKeepsInv(codec, truth, base, ws, steps, k);
    ExactReplays(codec, truth, base, ws[k].stream, p);
    assert A.Follows(truth, A.Last(base, ws[k].stream[..p]), ws[k].stream[p]);
  }

  // ----- the object -----

  class RSM {
    const me: nat
    var id: nat
    var results: map<Key, Channel>
    var keyValue: Store

    ghost function View(): Server
      reads this
    {
      Server(me, id, results, keyValue)
    }

    /** `MakeRSM`: a stored snapshot is restored into the empty map. */
    constructor (me: nat, snapshot: Store)
      ensures View() == Server(me, 0, map[], snapshot)
    {
      this.me, id, results := me, 0, map[];
      keyValue := snapshot;
    }

    /** `Submit` up to where it waits: a channel is open afterwards under the new id exactly if Raft has put the
        operation into its log, and under the index where it is. */
    method Submit(req: Input, raft: RaftObject.Raft, encode: Op -> RaftServer.Command)
      returns (op: Op, started: RaftServer.Started)
      requires RaftServer.WellFormed(raft.View())
      requires raft.role == RaftServer.Leader ==>
                 forall p :: 0 <= p < raft.n && p != raft.me ==> raft.nextIndex[p] <= RaftServer.LogLength(raft.View())
      modifies this, raft
      ensures op == Op(req, old(id), me)
      ensures (raft.View(), started) == RaftServer.Start(old(raft.View()), encode(op))
      ensures View() == Register(old(View()), started)
      ensures started.isLeader ==>
                && Key(op.id, op.me, started.index) in results
                && O.Has(raft.View(), started.index) && RaftServer.At(raft.View(), started.index).command == encode(op)
    {
      op := Op(req, id, me);
      id := id + 1;
      O.StartOutcome(raft.View(), encode(op));
      var sent;
      started, sent := raft.Start(encode(op));
      if started.isLeader { results := results[Key(op.id, op.me, started.index) := Waiting]; }
    }

    /** One turn of its waiting loop, which leaves the map of channels clean whenever it returns. */
    method Wait(key: Key, leading: bool) returns (outcome: Outcome)
      requires key in results
      modifies this`results
      ensures (View(), outcome) == Polled(old(View()), key, leading)
      ensures outcome != NotYet ==> key !in results
    {
      match results[key]
      case Ready(result) =>
        results := results - {key};
        outcome := Answered(result);
      case Waiting =>
        if leading { return NotYet; }
        results := results - {key};
        outcome := WrongLeader;
    }

    /** `DoOp` */
    method DoOp(req: Input) returns (out: Output)
      modifies this`keyValue
      ensures (keyValue, out) == Execute(old(keyValue), req)
    {
      match req
      case Read(key) =>
        if key !in keyValue { return Output("", 0, ErrNoKey); }
        out := Output(keyValue[key].value, keyValue[key].version, OK);
      case Write(key, value, version) =>
        if key !in keyValue {
          if version != 0 { return Output("", 0, ErrNoKey); }
          keyValue := keyValue[key := Data(version + 1, value)];
          return Output("", 0, OK);
        }
        if version != keyValue[key].version { return Output("", 0, ErrVersion); }
        keyValue := keyValue[key := Data(version + 1, value)];
        out := Output("", 0, OK);
    }

    method ApplyCommand(op: Op, index: nat)
      modifies this
      ensures View() == Executed(old(View()), op, index)
    {
      var out := DoOp(op.req);
      var key := Key(op.id, op.me, index);
      if key in results && results[key].Waiting? { results := results[key := Ready(out)]; }
    }

    /** The snapshot's keys get its values, the others keep theirs; so the map is the snapshot exactly
        when it had no key besides. */
    method Restore(snapshot: Store)
      modifies this`keyValue
      ensures forall key :: Get(keyValue, key) == if key in snapshot then Get(snapshot, key) else Get(old(keyValue), key)
      ensures keyValue == snapshot <==> old(keyValue).Keys <= snapshot.Keys
      ensures keyValue == Restored(old(keyValue), snapshot)
    {
      RestoreExactIff(keyValue, snapshot);
      keyValue := keyValue + snapshot;
    }
  }
}
