/** Migration never gets stuck: whatever has happened, a controller can carry the next configuration out,
    publish it, and leave every shard working at its new owner and gone from its old one. */
module ShardProgress {
  import opened KeyValue
  import opened ShardGroup
  import opened ShardMigration
  import G = ShardGap

  /** One run goes on from another. */
  predicate Continues(ws: seq<World>, steps: seq<Step>, ws': seq<World>, steps': seq<Step>) {
    ws <= ws' && steps <= steps'
  }

  /** The group has neither the shard nor its keys any more. */
  predicate Gone(w: World, g: Gid, sh: Shard) {
    ConfigOf(GroupAt(w, g), sh).state == DontOwn && TableOf(GroupAt(w, g), sh) == map[]
  }

  /** No group's copy of another shard changes. */
  ghost predicate OthersSame(w: World, w': World, sh: Shard) {
    forall g, s {:trigger ConfigOf(GroupAt(w', g), s)} {:trigger TableOf(GroupAt(w', g), s)} :: s != sh ==>
      ConfigOf(GroupAt(w', g), s) == ConfigOf(GroupAt(w, g), s) && TableOf(GroupAt(w', g), s) == TableOf(GroupAt(w, g), s)
  }

  /** The controller's request is sent and executed, and its answer received. */
  lemma Turn(plan: Plan, ws: seq<World>, steps: seq<Step>, c: nat) returns (ws': seq<World>, steps': seq<Step>)
    requires IsRun(plan, ws, steps) && Relocates(plan, ControllerAt(ws[|steps|], c))
    ensures IsRun(plan, ws', steps') && Continues(ws, steps, ws', steps')
    ensures var w, w' := ws[|steps|], ws'[|steps'|];
            var m := ControllerAt(w, c);
            var msg := Wants(plan, m);
            && w'.published == w.published && w'.groups == w.groups[msg.to := DoOp(GroupAt(w, msg.to), plan.shardOf, msg.req).0]
            && ControllerAt(w', c) == Advance(m, ResponseOf(plan, w, msg.to, msg.req))
            && OthersSame(w, w', m.sh)
  {
    var w := ws[|steps|];
    var m := ControllerAt(w, c);
    var msg := Wants(plan, m);
    RequestIsLocal(GroupAt(w, msg.to), plan.shardOf, msg.req);
    ws', steps' := G.OneMore(plan, ws, steps, Send(c));
    ws', steps' := G.OneMore(plan, ws', steps', ExecuteMove(msg));
    ws', steps' := G.OneMore(plan, ws', steps', Receive(c, Answer(msg, ResponseOf(plan, w, msg.to, msg.req))));
  }

  lemma SameTwice(w: World, w1: World, w2: World, sh: Shard)
    requires OthersSame(w, w1, sh) && OthersSame(w1, w2, sh)
    ensures OthersSame(w, w2, sh)
  {
  }

  /** The old owner lets a deletion through: nothing newer has reached it. */
  lemma DeletionTaken(plan: Plan, ws: seq<World>, steps: seq<Step>, c: nat)
    requires IsRun(plan, ws, steps) && plan.gap <= 1
    requires var w := ws[|steps|];
             var m := ControllerAt(w, c);
             m.Moving? && m.phase.Deleting? && m.start == w.published && m.num == w.published + 1 && m.sh < NSHARDS
    ensures var w := ws[|steps|];
            var m := ControllerAt(w, c);
            ConfigOf(GroupAt(w, plan.owner(m.start, m.sh)), m.sh).version <= m.num
  {
    var maps, homes := RunExplained(plan, ws, steps);
    var w := ws[|steps|];
    var m := ControllerAt(w, c);
    assert ControllerOk(plan, w, homes, m) && ShardOk(plan, w, homes, maps[|steps|], m.sh);
    assert AwayOk(plan, w, homes, m.sh, plan.owner(m.start, m.sh));
  }

  /** One shard: left alone if it stays, else frozen, installed and deleted. */
  lemma MoveShard(plan: Plan, ws: seq<World>, steps: seq<Step>, c: nat, sh: Shard)
    returns (ws': seq<World>, steps': seq<Step>)
    requires IsRun(plan, ws, steps) && plan.gap <= 1 && sh < NSHARDS
    requires var w := ws[|steps|]; ControllerAt(w, c) == Moving(w.published, w.published + 1, sh, Freezing)
    ensures IsRun(plan, ws', steps') && Continues(ws, steps, ws', steps')
    ensures var w, w' := ws[|steps|], ws'[|steps'|];
            && w'.published == w.published && ControllerAt(w', c) == Moving(w.published, w.published + 1, sh + 1, Freezing)
            && OthersSame(w, w', sh) && (Moves(plan, w.published + 1, sh) ==> Gone(w', plan.owner(w.published, sh), sh))
  {
    var w := ws[|steps|];
    if Relocates(plan, ControllerAt(w, c)) {
      var ws1, steps1 := Turn(plan, ws, steps, c);
      var ws2, steps2 := Turn(plan, ws1, steps1, c);
      SameTwice(w, ws1[|steps1|], ws2[|steps2|], sh);
      DeletionTaken(plan, ws2, steps2, c);
      ws', steps' := Turn(plan, ws2, steps2, c);
      SameTwice(w, ws2[|steps2|], ws'[|steps'|], sh);
    } else {
      ws', steps' := G.OneMore(plan, ws, steps, Skip(c));
    }
  }

  /** Every shard before `sh` that moves has left its old owner. */
  predicate Cleared(plan: Plan, w: World, sh: Shard) {
    forall s :: 0 <= s < sh && Moves(plan, w.published + 1, s) ==> Gone(w, plan.owner(w.published, s), s)
  }

  lemma {:induction false} MoveShards(plan: Plan, ws: seq<World>, steps: seq<Step>, c: nat, sh: Shard)
    returns (ws': seq<World>, steps': seq<Step>)
    requires IsRun(plan, ws, steps) && plan.gap <= 1 && sh <= NSHARDS && Cleared(plan, ws[|steps|], sh)
    requires var w := ws[|steps|]; ControllerAt(w, c) == Moving(w.published, w.published + 1, sh, Freezing)
    ensures IsRun(plan, ws', steps') && Continues(ws, steps, ws', steps')
    ensures var w, w' := ws[|steps|], ws'[|steps'|];
            && w'.published == w.published && ControllerAt(w', c) == Moving(w.published, w.published + 1, NSHARDS, Freezing)
            && Cleared(plan, w', NSHARDS)
    decreases NSHARDS - sh
  {
    ws', steps' := ws, steps;
    if sh < NSHARDS {
      ws', steps' := MoveShard(plan, ws, steps, c, sh);
      ws', steps' := MoveShards(plan, ws', steps', c, sh + 1);
    }
  }

  /** When every shard has been gone through, each works at its owner in the next configuration. */
  lemma AllSettled(plan: Plan, ws: seq<World>, steps: seq<Step>, c: nat, sh: Shard)
    requires IsRun(plan, ws, steps) && plan.gap <= 1 && sh < NSHARDS
    requires var w := ws[|steps|]; ControllerAt(w, c) == Moving(w.published, w.published + 1, NSHARDS, Freezing)
    ensures WorksOn(ws[|steps|], plan.owner(ws[|steps|].published + 1, sh), sh)
  {
    var maps, homes := RunExplained(plan, ws, steps);
    var w := ws[|steps|];
    assert ControllerOk(plan, w, homes, ControllerAt(w, c)) && ShardOk(plan, w, homes, maps[|steps|], sh);
    if !Moves(plan, w.published + 1, sh) {
      assert plan.owner(w.published, sh) == plan.owner(homes[sh], sh);
    }
  }

  /** From every reachable state, and whatever other controllers left behind, any controller can publish the next
      configuration; then every shard works at its owner in it, and is gone from the owner it left. */
  lemma MigrationCanComplete(plan: Plan, ws: seq<World>, steps: seq<Step>, c: nat)
    returns (ws': seq<World>, steps': seq<Step>)
    requires IsRun(plan, ws, steps) && plan.gap == 1
    ensures IsRun(plan, ws', steps') && Continues(ws, steps, ws', steps')
    ensures var w, w' := ws[|steps|], ws'[|steps'|];
            && w'.published == w.published + 1
            && (forall sh :: 0 <= sh < NSHARDS ==> WorksOn(w', plan.owner(w'.published, sh), sh))
            && (forall sh :: 0 <= sh < NSHARDS && Moves(plan, w'.published, sh) ==> Gone(w', plan.owner(w.published, sh), sh))
  {
    var w := ws[|steps|];
    ws', steps' := G.OneMore(plan, ws, steps, Begin(c, w.published + 1));
    ws', steps' := MoveShards(plan, ws', steps', c, 0);
    var next := w.published + 1;
    forall sh | 0 <= sh < NSHARDS ensures WorksOn(ws'[|steps'|], plan.owner(next, sh), sh) {
      AllSettled(plan, ws', steps', c, sh);
    }
    ws', steps' := Published(plan, ws', steps', c);
  }

  lemma Published(plan: Plan, ws: seq<World>, steps: seq<Step>, c: nat) returns (ws': seq<World>, steps': seq<Step>)
    requires IsRun(plan, ws, steps)
    requires var w := ws[|steps|]; ControllerAt(w, c) == Moving(w.published, w.published + 1, NSHARDS, Freezing)
    ensures IsRun(plan, ws', steps') && Continues(ws, steps, ws', steps')
    ensures var w, w' := ws[|steps|], ws'[|steps'|]; w'.published == w.published + 1 && w'.groups == w.groups
  {
    ws', steps' := G.OneMore(plan, ws, steps, Publish(c));
  }

  /** At every moment of every run each shard is worked on, or frozen at its owner on its way to the next one. */
  lemma WorkingOrMoving(plan: Plan, ws: seq<World>, steps: seq<Step>, k: nat, sh: Shard)
    requires IsRun(plan, ws, steps) && plan.gap <= 1 && k <= |steps| && sh < NSHARDS
    ensures var w := ws[k];
            || (exists g :: WorksOn(w, g, sh))
            || (Moves(plan, w.published + 1, sh)
                && ConfigOf(GroupAt(w, plan.owner(w.published, sh)), sh) == Config(Frozen, w.published + 1))
  {
    Prefix(plan, ws, steps, k);
    var maps, homes := RunExplained(plan, ws[..k + 1], steps[..k]);
    var w := ws[k];
    assert ShardOk(plan, w, homes, maps[k], sh);
    var home := plan.owner(homes[sh], sh);
    if !WorksOn(w, home, sh) { assert plan.owner(w.published, sh) == home; }
  }
}
