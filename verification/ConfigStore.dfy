/** How controllers of `src/shardkv1/shardctrler/shardctrler.go` publish configurations: two keys of a
    versioned store, written by conditional Puts that may be lost, delayed or executed again. */
module ConfigStore {
  import opened KeyValue
  import Clerk

  const CONFIG_KEY := "Config"
  const APPLY_KEY := "ApplyConfig"

  datatype ShardConfig = ShardConfig(num: nat, shards: seq<nat>, groups: map<nat, seq<string>>)

  /** `String` and `FromString`. */
  datatype Codec = Codec(encode: ShardConfig -> string, decode: string -> ShardConfig)

  ghost predicate Faithful(codec: Codec) {
    forall cfg :: codec.decode(codec.encode(cfg)) == cfg
  }

  /** A Put of a configuration at the version that was read before. */
  datatype Message = Message(key: string, cfg: ShardConfig, version: nat)

  /** Where a controller is. */
  datatype Controller =
    | Idle
    | Saving(cfg: ShardConfig)              // in the loop of `saveApplyConfig`, about to read
    | SavePut(cfg: ShardConfig)             // its Put is under way
    | Ready                                 // about to read both keys
    | Queried(cur: ShardConfig)             // the first of the two reads is done
    | Moving(cur: ShardConfig, cfg: ShardConfig)
    | Publishing(cfg: ShardConfig)          // in the last loop of `changeConfiguration`, about to read
    | PublishPut(cfg: ShardConfig)          // its Put is under way

  /** Puts are never removed from `puts`, so each may execute late, again or never. */
  datatype System = System(kv: Store, controllers: map<nat, Controller>, puts: set<Message>)

  datatype Step =
    | Change(c: nat, cfg: ShardConfig)      // `ChangeConfigTo`
    | Recover(c: nat)                       // `InitController`
    | Read(c: nat)                          // the next Get returns
    | Execute(msg: Message)                 // a Put reaches the store
    | Return(c: nat, err: Err)              // the clerk's Put returns, with any error
    | Migrated(c: nat)                      // every shard has been moved
    | GiveUp(c: nat)
    | Elsewhere(key: string, value: string, version: nat)   // traffic on the lock key

  /** A turn of either loop after its Get: done, or a Put at the version read. */
  datatype Turn = Done | Try(msg: Message)

  function TurnOf(codec: Codec, key: string, cfg: ShardConfig, got: Got): Turn {
    if codec.decode(got.value).num >= cfg.num then Done else Try(Message(key, cfg, got.version))
  }

  function At(sys: System, c: nat): Controller {
    if c in sys.controllers then sys.controllers[c] else Idle
  }

  predicate Enabled(sys: System, step: Step) {
    match step
    case Change(c, _) => At(sys, c).Idle?
    case Recover(c) => At(sys, c).Idle?
    case Read(c) => At(sys, c).Saving? || At(sys, c).Ready? || At(sys, c).Queried? || At(sys, c).Publishing?
    case Execute(msg) => msg in sys.puts
    case Return(c, _) => At(sys, c).SavePut? || At(sys, c).PublishPut?
    case Migrated(c) => At(sys, c).Moving?
    case GiveUp(c) => true
    case Elsewhere(key, _, _) => key != CONFIG_KEY && key != APPLY_KEY
  }

  /** The controller after its Get, and the Put it then sends. */
  function AfterRead(codec: Codec, m: Controller, kv: Store): (Controller, set<Message>)
    requires m.Saving? || m.Ready? || m.Queried? || m.Publishing?
  {
    match m
    case Saving(cfg) =>
      var turn := TurnOf(codec, APPLY_KEY, cfg, Get(kv, APPLY_KEY));
      if turn.Done? then (Ready, {}) else (SavePut(cfg), {turn.msg})
    case Ready => (Queried(codec.decode(Get(kv, CONFIG_KEY).value)), {})
    case Queried(cur) =>
      var cfg := codec.decode(Get(kv, APPLY_KEY).value);
      (if cur.num >= cfg.num then Idle else Moving(cur, cfg), {})
    case Publishing(cfg) =>
      var turn := TurnOf(codec, CONFIG_KEY, cfg, Get(kv, CONFIG_KEY));
      if turn.Done? then (Idle, {}) else (PublishPut(cfg), {turn.msg})
  }

  function AfterPut(m: Controller, err: Err): Controller
    requires m.SavePut? || m.PublishPut?
  {
    match m
    case SavePut(cfg) => if err == OK then Ready else Saving(cfg)
    case PublishPut(cfg) => if err == OK then Idle else Publishing(cfg)
  }

  function Apply(codec: Codec, sys: System, step: Step): System
    requires Enabled(sys, step)
  {
    match step
    case Change(c, cfg) => sys.(controllers := sys.controllers[c := Saving(cfg)])
    case Recover(c) => sys.(controllers := sys.controllers[c := Ready])
    case Read(c) =>
      var (m, news) := AfterRead(codec, At(sys, c), sys.kv);
      sys.(controllers := sys.controllers[c := m], puts := sys.puts + news)
    case Execute(msg) => sys.(kv := Put(sys.kv, msg.key, codec.encode(msg.cfg), msg.version).0)
    case Return(c, err) => sys.(controllers := sys.controllers[c := AfterPut(At(sys, c), err)])
    case Migrated(c) => sys.(controllers := sys.controllers[c := Publishing(At(sys, c).cfg)])
    case GiveUp(c) => sys.(controllers := sys.controllers[c := Idle])
    case Elsewhere(key, value, version) => sys.(kv := Put(sys.kv, key, value, version).0)
  }

  /** What `InitConfig` leaves in the store. */
  function Initialized(codec: Codec, first: ShardConfig): Store {
    map[CONFIG_KEY := Data(1, codec.encode(first)), APPLY_KEY := Data(1, codec.encode(first))]
  }

  predicate StepAt(codec: Codec, states: seq<System>, steps: seq<Step>, k: nat)
    requires k < |steps| && |states| == |steps| + 1
  {
    Enabled(states[k], steps[k]) && states[k + 1] == Apply(codec, states[k], steps[k])
  }

  ghost predicate IsRun(codec: Codec, first: ShardConfig, states: seq<System>, steps: seq<Step>) {
    && Faithful(codec) && |states| == |steps| + 1 && states[0] == System(Initialized(codec, first), map[], {})
    && forall k {:trigger StepAt(codec, states, steps, k)} :: 0 <= k < |steps| ==> StepAt(codec, states, steps, k)
  }

  function Stored(codec: Codec, kv: Store, key: string): ShardConfig {
    codec.decode(Get(kv, key).value)
  }

  // ----- the invariant -----

  /** A Put still able to take effect carries a higher number than what is stored. */
  predicate Fenced(codec: Codec, kv: Store, msg: Message) {
    && (msg.key == CONFIG_KEY || msg.key == APPLY_KEY)
    && msg.version <= Get(kv, msg.key).version
    && (msg.version == Get(kv, msg.key).version ==> Stored(codec, kv, msg.key).num < msg.cfg.num)
  }

  /** The configuration a controller is about to publish, if any. */
  function Announced(m: Controller): set<ShardConfig> {
    match m
    case Moving(_, cfg) => {cfg}
    case Publishing(cfg) => {cfg}
    case PublishPut(cfg) => {cfg}
    case _ => {}
  }

  /** `seen` holds every configuration that was ever stored to be applied. */
  ghost predicate Inv(codec: Codec, sys: System, seen: set<ShardConfig>) {
    && CONFIG_KEY in sys.kv && APPLY_KEY in sys.kv
    && Stored(codec, sys.kv, APPLY_KEY) in seen && Stored(codec, sys.kv, CONFIG_KEY) in seen
    && (forall cfg :: cfg in seen ==> cfg.num <= Stored(codec, sys.kv, APPLY_KEY).num)
    && (forall a, b :: a in seen && b in seen && a.num == b.num ==> a == b)
    && (forall msg :: msg in sys.puts ==> Fenced(codec, sys.kv, msg) && (msg.key == CONFIG_KEY ==> msg.cfg in seen))
    && (forall c {:trigger At(sys, c)} :: Announced(At(sys, c)) <= seen)
  }

  function Seen(codec: Codec, states: seq<System>): set<ShardConfig> {
    set k | 0 <= k < |states| :: Stored(codec, states[k].kv, APPLY_KEY)
  }

  /** A configuration is stored only over one with a lower number, and no other Put to the key is then able to. */
  lemma ExecuteKeepsInv(codec: Codec, sys: System, seen: set<ShardConfig>, msg: Message)
    requires Faithful(codec) && Inv(codec, sys, seen) && msg in sys.puts
    ensures var sys' := Apply(codec, sys, Execute(msg));
            && Inv(codec, sys', seen + {Stored(codec, sys'.kv, APPLY_KEY)})
            && RisesTo(codec, sys.kv, sys'.kv, APPLY_KEY) && RisesTo(codec, sys.kv, sys'.kv, CONFIG_KEY)
  {
    var sys' := Apply(codec, sys, Execute(msg));
    assert Fenced(codec, sys.kv, msg);
    PutEffect(sys.kv, msg.key, codec.encode(msg.cfg), msg.version);
    assert codec.decode(codec.encode(msg.cfg)) == msg.cfg;
    forall m | m in sys'.puts ensures Fenced(codec, sys'.kv, m) { assert Fenced(codec, sys.kv, m); }
    forall c ensures Announced(At(sys', c)) <= seen { assert At(sys', c) == At(sys, c); }
  }

  /** What is stored under the key stays, or gives way to a higher number. */
  predicate RisesTo(codec: Codec, kv: Store, kv': Store, key: string) {
    Stored(codec, kv', key) == Stored(codec, kv, key) || Stored(codec, kv, key).num < Stored(codec, kv', key).num
  }

  lemma StepKeepsInv(codec: Codec, sys: System, seen: set<ShardConfig>, step: Step)
    requires Faithful(codec) && Inv(codec, sys, seen) && Enabled(sys, step)
    ensures var sys' := Apply(codec, sys, step);
            && Inv(codec, sys', seen + {Stored(codec, sys'.kv, APPLY_KEY)})
            && RisesTo(codec, sys.kv, sys'.kv, APPLY_KEY) && RisesTo(codec, sys.kv, sys'.kv, CONFIG_KEY)
  {
    var sys' := Apply(codec, sys, step);
    match step
    case Execute(msg) => ExecuteKeepsInv(codec, sys, seen, msg);
    case Elsewhere(key, value, version) =>
      PutEffect(sys.kv, key, value, version);
      forall m | m in sys'.puts ensures Fenced(codec, sys'.kv, m) { assert Fenced(codec, sys.kv, m); }
      forall c ensures Announced(At(sys', c)) <= seen { assert At(sys', c) == At(sys, c); }
    case _ =>
      assert sys'.kv == sys.kv && Announced(At(sys, step.c)) <= seen;
      forall c ensures Announced(At(sys', c)) <= seen { assert c != step.c ==> At(sys', c) == At(sys, c); }
  }

  lemma {:induction false} RunKeepsInv(codec: Codec, first: ShardConfig, states: seq<System>, steps: seq<Step>, k: nat)
    requires IsRun(codec, first, states, steps) && k <= |steps|
    ensures Inv(codec, states[k], Seen(codec, states[..k + 1]))
  {
    if k == 0 {
      assert codec.decode(codec.encode(first)) == first;
      assert states[..1] == [states[0]];
      assert Seen(codec, states[..1]) == {first};
    } else {
      RunKeepsInv(codec, first, states, steps, k - 1);
      assert StepAt(codec, states, steps, k - 1);
      StepKeepsInv(codec, states[k - 1], Seen(codec, states[..k]), steps[k - 1]);
      SeenGrows(codec, states, k);
    }
  }

  lemma SeenGrows(codec: Codec, states: seq<System>, k: nat)
    requires 0 < k < |states|
    ensures Seen(codec, states[..k + 1]) == Seen(codec, states[..k]) + {Stored(codec, states[k].kv, APPLY_KEY)}
  {
    var was, now := states[..k], states[..k + 1];
    forall cfg | cfg in Seen(codec, was) ensures cfg in Seen(codec, now) {
      var i :| 0 <= i < |was| && cfg == Stored(codec, was[i].kv, APPLY_KEY);
      assert now[i] == was[i];
    }
    assert now[k] == states[k];
    forall cfg | cfg in Seen(codec, now) ensures cfg in Seen(codec, was) || cfg == Stored(codec, states[k].kv, APPLY_KEY) {
      var i :| 0 <= i < |now| && cfg == Stored(codec, now[i].kv, APPLY_KEY);
      if i < k { assert now[i] == was[i]; }
    }
  }

  // ----- every run -----

  /** Stored numbers only increase: a configuration gives way only to one with a higher number. */
  lemma {:induction false} NumbersIncrease(codec: Codec, first: ShardConfig, states: seq<System>,
                                           steps: seq<Step>, i: nat, j: nat, key: string)
    requires IsRun(codec, first, states, steps) && i <= j <= |steps| && (key == CONFIG_KEY || key == APPLY_KEY)
    ensures RisesTo(codec, states[i].kv, states[j].kv, key)
    decreases j
  {
    if i < j {
      NumbersIncrease(codec, first, states, steps, i, j - 1, key);
      RunKeepsInv(codec, first, states, steps, j - 1);
      assert StepAt(codec, states, steps, j - 1);
      StepKeepsInv(codec, states[j - 1], Seen(codec, states[..j]), steps[j - 1]);
    }
  }

  /** Every configuration published was stored to be applied before, or is the first one, and is never
      newer than the one stored to be applied. */
  lemma PublishedWasApplied(codec: Codec, first: ShardConfig, states: seq<System>, steps: seq<Step>, k: nat)
    requires IsRun(codec, first, states, steps) && k <= |steps|
    ensures exists i :: 0 <= i <= k && Stored(codec, states[i].kv, APPLY_KEY) == Stored(codec, states[k].kv, CONFIG_KEY)
    ensures Stored(codec, states[k].kv, CONFIG_KEY).num <= Stored(codec, states[k].kv, APPLY_KEY).num
  {
    RunKeepsInv(codec, first, states, steps, k);
    var now := states[..k + 1];
    var i :| 0 <= i < |now| && Stored(codec, now[i].kv, APPLY_KEY) == Stored(codec, states[k].kv, CONFIG_KEY);
    assert states[i] == now[i];
  }

  /** A number never has two contents, whichever of the keys holds them and whenever. */
  lemma OneContentPerNumber(codec: Codec, first: ShardConfig, states: seq<System>, steps: seq<Step>,
                            i: nat, j: nat, key: string, key': string)
    requires IsRun(codec, first, states, steps) && i <= |steps| && j <= |steps|
    requires key in {CONFIG_KEY, APPLY_KEY} && key' in {CONFIG_KEY, APPLY_KEY}
    requires Stored(codec, states[i].kv, key).num == Stored(codec, states[j].kv, key').num
    ensures Stored(codec, states[i].kv, key) == Stored(codec, states[j].kv, key')
  {
    var k := if i < j then j else i;
    RunKeepsInv(codec, first, states, steps, i);
    RunKeepsInv(codec, first, states, steps, j);
    RunKeepsInv(codec, first, states, steps, k);
    SeenPrefix(codec, states, i, k);
    SeenPrefix(codec, states, j, k);
  }

  lemma SeenPrefix(codec: Codec, states: seq<System>, i: nat, k: nat)
    requires i <= k < |states|
    ensures Seen(codec, states[..i + 1]) <= Seen(codec, states[..k + 1])
  {
    var was, now := states[..i + 1], states[..k + 1];
    forall cfg | cfg in Seen(codec, was) ensures cfg in Seen(codec, now) {
      var n :| 0 <= n < |was| && cfg == Stored(codec, was[n].kv, APPLY_KEY);
      assert now[n] == was[n];
    }
  }

  // ----- a configuration skipped -----

  lemma OneMore(codec: Codec, first: ShardConfig, states: seq<System>, steps: seq<Step>, step: Step)
    returns (states': seq<System>, steps': seq<Step>)
    requires IsRun(codec, first, states, steps) && Enabled(states[|steps|], step)
    ensures IsRun(codec, first, states', steps') && states'[|steps'|] == Apply(codec, states[|steps|], step)
    ensures states <= states' && steps <= steps'
  {
    states', steps' := states + [Apply(codec, states[|steps|], step)], steps + [step];
    forall k | 0 <= k < |steps'| ensures StepAt(codec, states', steps', k) {
      if k < |steps| { assert StepAt(codec, states, steps, k); }
    }
  }

  /** A controller asked for a configuration higher than the one stored saves it and reads both keys. */
  lemma SavesAndReads(codec: Codec, first: ShardConfig, states: seq<System>, steps: seq<Step>, c: nat, cfg: ShardConfig)
    returns (states': seq<System>, steps': seq<Step>)
    requires IsRun(codec, first, states, steps)
    requires var sys := states[|steps|];
             && At(sys, c).Idle? && CONFIG_KEY in sys.kv && APPLY_KEY in sys.kv
             && cfg.num > Stored(codec, sys.kv, APPLY_KEY).num && Stored(codec, sys.kv, CONFIG_KEY).num < cfg.num
    ensures IsRun(codec, first, states', steps') && states <= states' && steps <= steps'
    ensures var sys, sys' := states[|steps|], states'[|steps'|];
            && At(sys', c) == Moving(Stored(codec, sys.kv, CONFIG_KEY), cfg) && Stored(codec, sys'.kv, APPLY_KEY) == cfg
            && sys'.kv.Keys == sys.kv.Keys && Stored(codec, sys'.kv, CONFIG_KEY) == Stored(codec, sys.kv, CONFIG_KEY)
            && forall d :: d != c ==> At(sys', d) == At(sys, d)
  {
    var kv := states[|steps|].kv;
    var msg := Message(APPLY_KEY, cfg, Get(kv, APPLY_KEY).version);
    assert codec.decode(codec.encode(cfg)) == cfg;
    states', steps' := OneMore(codec, first, states, steps, Change(c, cfg));
    states', steps' := OneMore(codec, first, states', steps', Step.Read(c));
    assert msg in states'[|steps'|].puts && At(states'[|steps'|], c) == SavePut(cfg);
    states', steps' := OneMore(codec, first, states', steps', Execute(msg));
    states', steps' := OneMore(codec, first, states', steps', Return(c, OK));
    states', steps' := OneMore(codec, first, states', steps', Step.Read(c));
    states', steps' := OneMore(codec, first, states', steps', Step.Read(c));
  }

  /** Each request is for the next number, and still a controller ends up two ahead of what is published:
      the first one to be asked has saved its configuration but not published it. */
  lemma GapReached(codec: Codec, first: ShardConfig, second: ShardConfig, third: ShardConfig)
    returns (states: seq<System>, steps: seq<Step>)
    requires Faithful(codec) && second.num == first.num + 1 && third.num == first.num + 2
    ensures IsRun(codec, first, states, steps)
    ensures At(states[|steps|], 0) == Moving(first, second) && At(states[|steps|], 1) == Moving(first, third)
  {
    assert codec.decode(codec.encode(first)) == first;
    states, steps := [System(Initialized(codec, first), map[], {})], [];
    states, steps := SavesAndReads(codec, first, states, steps, 0, second);
    states, steps := SavesAndReads(codec, first, states, steps, 1, third);
  }

  // ----- publication can always be completed -----

  /** A controller that has moved every shard publishes. */
  lemma Publishes(codec: Codec, first: ShardConfig, states: seq<System>, steps: seq<Step>, c: nat)
    returns (states': seq<System>, steps': seq<Step>)
    requires IsRun(codec, first, states, steps)
    requires var sys := states[|steps|];
             At(sys, c).Moving? && CONFIG_KEY in sys.kv && Stored(codec, sys.kv, CONFIG_KEY).num < At(sys, c).cfg.num
    ensures IsRun(codec, first, states', steps') && states <= states' && steps <= steps'
    ensures var sys, sys' := states[|steps|], states'[|steps'|];
            && Stored(codec, sys'.kv, CONFIG_KEY) == At(sys, c).cfg && At(sys', c).Idle?
            && Stored(codec, sys'.kv, APPLY_KEY) == Stored(codec, sys.kv, APPLY_KEY)
  {
    var sys := states[|steps|];
    var cfg := At(sys, c).cfg;
    var msg := Message(CONFIG_KEY, cfg, Get(sys.kv, CONFIG_KEY).version);
    assert codec.decode(codec.encode(cfg)) == cfg;
    states', steps' := OneMore(codec, first, states, steps, Migrated(c));
    states', steps' := OneMore(codec, first, states', steps', Step.Read(c));
    assert msg in states'[|steps'|].puts && At(states'[|steps'|], c) == PublishPut(cfg);
    states', steps' := OneMore(codec, first, states', steps', Execute(msg));
    states', steps' := OneMore(codec, first, states', steps', Return(c, OK));
  }

  /** From every reachable state, whatever other controllers have under way, an idle controller that is asked for
      a configuration with a new number can save it, read it back, and publish it. */
  lemma ConfigCanBePublished(codec: Codec, first: ShardConfig, states: seq<System>, steps: seq<Step>, c: nat, cfg: ShardConfig)
    returns (states': seq<System>, steps': seq<Step>)
    requires IsRun(codec, first, states, steps) && At(states[|steps|], c).Idle?
    requires cfg.num > Stored(codec, states[|steps|].kv, APPLY_KEY).num
    ensures IsRun(codec, first, states', steps') && states <= states' && steps <= steps'
    ensures var sys := states'[|steps'|];
            At(sys, c).Idle? && Stored(codec, sys.kv, APPLY_KEY) == Stored(codec, sys.kv, CONFIG_KEY) == cfg
  {
    RunKeepsInv(codec, first, states, steps, |steps|);
    states', steps' := SavesAndReads(codec, first, states, steps, c, cfg);
    states', steps' := Publishes(codec, first, states', steps', c);
  }

  // ----- the controller object -----

  /** The first `n` turns of either loop, given what its Get and its Put return on each: every turn put
      the configuration at the version read, over a lower number, and failed. */
  predicate Trying(codec: Codec, key: string, cfg: ShardConfig, turns: seq<(Got, Err)>, n: nat, sent: seq<Message>)
    requires n <= |turns|
  {
    && |sent| == n
    && forall i :: 0 <= i < n ==>
         codec.decode(turns[i].0.value).num < cfg.num && turns[i].1 != OK && sent[i] == Message(key, cfg, turns[i].0.version)
  }

  /** The loop ends after a Put that succeeds, or on reading a number at least as high; or the turns run out. */
  predicate Outcome(codec: Codec, key: string, cfg: ShardConfig, turns: seq<(Got, Err)>, ended: bool,
                    sent: seq<Message>) {
    if !ended then Trying(codec, key, cfg, turns, |turns|, sent)
    else
      || (|sent| < |turns| && Trying(codec, key, cfg, turns, |sent|, sent) && codec.decode(turns[|sent|].0.value).num >= cfg.num)
      || (0 < |sent| <= |turns| && Trying(codec, key, cfg, turns, |sent| - 1, sent[..|sent| - 1])
          && TurnOf(codec, key, cfg, turns[|sent| - 1].0) == Try(sent[|sent| - 1]) && turns[|sent| - 1].1 == OK)
  }

  class ShardCtrler {
    var currentVersion: nat

    constructor ()
      ensures currentVersion == 0
    {
      currentVersion := 0;
    }

    /** `InitConfig` on a new store: both keys hold the first configuration, whatever calls are lost. */
    method InitConfig(server: KVServer, codec: Codec, cfg: ShardConfig, fates: seq<Clerk.Fate>, fates': seq<Clerk.Fate>)
      requires Clerk.Calls(fates) && Clerk.Calls(fates')
      requires currentVersion == 0 && server.keyValue == map[]
      modifies this, server
      ensures server.keyValue == Initialized(codec, cfg) && currentVersion == 1
    {
      Clerk.PutAloneEffect(server.keyValue, CONFIG_KEY, codec.encode(cfg), currentVersion, fates, true);
      var _ := Clerk.ClerkPut(server, CONFIG_KEY, codec.encode(cfg), currentVersion, fates);
      Clerk.PutAloneEffect(server.keyValue, APPLY_KEY, codec.encode(cfg), currentVersion, fates', true);
      var _ := Clerk.ClerkPut(server, APPLY_KEY, codec.encode(cfg), currentVersion, fates');
      currentVersion := currentVersion + 1;
    }

    method Query(codec: Codec, got: Got) returns (cfg: ShardConfig)
      modifies this
      ensures currentVersion == got.version && cfg == codec.decode(got.value)
    {
      currentVersion := got.version;
      cfg := codec.decode(got.value);
    }

    /** The loop of `saveApplyConfig`, until it returns or the turns given run out. */
    method SaveApplyConfig(codec: Codec, cfg: ShardConfig, turns: seq<(Got, Err)>)
      returns (ended: bool, sent: seq<Message>)
      ensures Outcome(codec, APPLY_KEY, cfg, turns, ended, sent)
    {
      ended, sent := false, [];
      var i := 0;
      while i < |turns|
        invariant 0 <= i <= |turns| && !ended && Trying(codec, APPLY_KEY, cfg, turns, i, sent)
      {
        var (got, err) := turns[i];
        var saved := codec.decode(got.value);
        if saved.num > cfg.num || saved.num == cfg.num { return true, sent; }
        ghost var before := sent;
        sent := sent + [Message(APPLY_KEY, cfg, got.version)];
        if err == OK {
          assert sent[..i] == before;
          return true, sent;
        }
        i := i + 1;
      }
    }

    /** The last loop of `changeConfiguration`, which puts at the version its query left behind. */
    method PublishConfig(codec: Codec, cfg: ShardConfig, turns: seq<(Got, Err)>)
      returns (ended: bool, sent: seq<Message>)
      modifies this
      ensures Outcome(codec, CONFIG_KEY, cfg, turns, ended, sent)
    {
      ended, sent := false, [];
      var i := 0;
      while i < |turns|
        invariant 0 <= i <= |turns| && !ended && Trying(codec, CONFIG_KEY, cfg, turns, i, sent)
      {
        var current := Query(codec, turns[i].0);
        if current.num >= cfg.num { return true, sent; }
        ghost var before := sent;
        sent := sent + [Message(CONFIG_KEY, cfg, currentVersion)];
        if turns[i].1 == OK {
          assert sent[..i] == before;
          currentVersion := currentVersion + 1;
          return true, sent;
        }
        i := i + 1;
      }
    }
  }
}
