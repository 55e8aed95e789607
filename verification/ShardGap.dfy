/** Why a controller must not skip a configuration. The code reads the published configuration and the
    one to apply separately and moves shards straight from the first to the second, whatever lies in
    between. That is right exactly when the second comes next after the first. */
module ShardGap {
  import opened KeyValue
  import opened ShardGroup
  import opened ShardMigration

  /** A run with one more step. */
  lemma OneMore(plan: Plan, ws: seq<World>, steps: seq<Step>, step: Step) returns (ws': seq<World>, steps': seq<Step>)
    requires IsRun(plan, ws, steps) && Enabled(plan, ws[|steps|], step)
    ensures IsRun(plan, ws', steps') && steps' == steps + [step] && ws' == ws + [Apply(plan, ws[|steps|], step)]
  {
    ws', steps' := ws + [Apply(plan, ws[|steps|], step)], steps + [step];
    forall k | 0 <= k < |steps'| ensures StepAt(plan, ws', steps', k) {
      if k < |steps| { assert StepAt(plan, ws, steps, k); }
    }
  }

  /** The request the controller waits for is sent and executed. */
  lemma SendAndExecute(plan: Plan, ws: seq<World>, steps: seq<Step>, c: nat)
    returns (ws': seq<World>, steps': seq<Step>)
    requires IsRun(plan, ws, steps) && Relocates(plan, ControllerAt(ws[|steps|], c))
    ensures IsRun(plan, ws', steps')
    ensures var w, w' := ws[|steps|], ws'[|steps'|];
            var msg := Wants(plan, ControllerAt(w, c));
            && w'.groups == w.groups[msg.to := DoOp(GroupAt(w, msg.to), plan.shardOf, msg.req).0]
            && w'.published == w.published && w'.controllers == w.controllers
            && Answer(msg, ResponseOf(plan, w, msg.to, msg.req)) in w'.answers
  {
    var msg := Wants(plan, ControllerAt(ws[|steps|], c));
    ws', steps' := OneMore(plan, ws, steps, Send(c));
    ws', steps' := OneMore(plan, ws', steps', ExecuteMove(msg));
  }

  /** A controller freezes shard 0 at its owner and installs it at the next one, as far as they let it. */
  lemma CarryOver(plan: Plan, ws: seq<World>, steps: seq<Step>, c: nat, num: Num)
    returns (ws': seq<World>, steps': seq<Step>)
    requires IsRun(plan, ws, steps)
    requires var w := ws[|steps|];
             var a, b := plan.owner(w.published, 0), plan.owner(num, 0);
             && w.published < num <= w.published + plan.gap && a != b
             && ConfigOf(GroupAt(w, a), 0).state != DontOwn && ConfigOf(GroupAt(w, a), 0).version <= num
             && ConfigOf(GroupAt(w, b), 0).version < num
    ensures IsRun(plan, ws', steps')
    ensures var w, w' := ws[|steps|], ws'[|steps'|];
            var a, b := plan.owner(w.published, 0), plan.owner(num, 0);
            && w'.published == w.published
            && ConfigOf(GroupAt(w', a), 0) == Config(Frozen, num) && TableOf(GroupAt(w', a), 0) == TableOf(GroupAt(w, a), 0)
            && ConfigOf(GroupAt(w', b), 0) == Config(Working, num) && TableOf(GroupAt(w', b), 0) == TableOf(GroupAt(w, a), 0)
            && forall g :: g != a && g != b ==> GroupAt(w', g) == GroupAt(w, g)
  {
    var w := ws[|steps|];
    var a, b := plan.owner(w.published, 0), plan.owner(num, 0);
    var table := TableOf(GroupAt(w, a), 0);
    ws', steps' := OneMore(plan, ws, steps, Begin(c, num));
    assert ControllerAt(ws'[|steps'|], c) == Moving(w.published, num, 0, Freezing);
    ws', steps' := SendAndExecute(plan, ws', steps', c);
    var answer := Answer(Message(a, Freeze(0, num)), FrozenAs(Contents(table), num, OK));
    ws', steps' := OneMore(plan, ws', steps', Receive(c, answer));
    assert ControllerAt(ws'[|steps'|], c) == Moving(w.published, num, 0, Installing(Contents(table)));
    ws', steps' := SendAndExecute(plan, ws', steps', c);
  }

  /** Shard 0 goes from group 1 to group 2 to group 3, and every key is in it. */
  function Passing(gap: nat): Plan {
    Plan((num, sh) => if sh == 0 && num >= 2 then (if num == 2 then 2 else 3) else 1, _ => 0, gap)
  }

  /** Two controllers at once, one applying the second configuration and one the third, leave two groups
      working on the shard. */
  lemma TwoWorkingGroups(gap: nat) returns (ws: seq<World>, steps: seq<Step>)
    requires gap >= 2
    ensures IsRun(Passing(gap), ws, steps)
    ensures ConfigOf(GroupAt(ws[|steps|], 2), 0) == Config(Working, 2) && TableOf(GroupAt(ws[|steps|], 2), 0) == map[]
    ensures ConfigOf(GroupAt(ws[|steps|], 3), 0) == Config(Working, 3) && TableOf(GroupAt(ws[|steps|], 3), 0) == map[]
  {
    var plan := Passing(gap);
    ws, steps := [Start()], [];
    assert ConfigOf(GroupAt(Start(), 1), 0) == Config(Working, NUM_FIRST);
    ws, steps := CarryOver(plan, ws, steps, 0, 2);
    ws, steps := CarryOver(plan, ws, steps, 1, 3);
  }

  /** A write accepted by one of them is then missing from a read answered by the other. */
  lemma SkippingLosesWrites(gap: nat) returns (ws: seq<World>, steps: seq<Step>)
    requires gap >= 2
    ensures IsRun(Passing(gap), ws, steps)
    ensures forall maps :: !Explains(Passing(gap), ws, steps, maps)
  {
    var plan := Passing(gap);
    ws, steps := TwoWorkingGroups(gap);
    var n, put, get := |steps|, ExecuteClient(2, PutKey("k", "v", 0)), ExecuteClient(3, GetKey("k"));
    assert ResponseOf(plan, ws[n], 2, put.req) == Stored(OK);
    ws, steps := OneMore(plan, ws, steps, put);
    assert ResponseOf(plan, ws[n + 1], 3, get.req) == Fetched(Got("", 0, ErrNoKey));
    ws, steps := OneMore(plan, ws, steps, get);
    forall maps ensures !Explains(plan, ws, steps, maps) {
      if Explains(plan, ws, steps, maps) {
        assert SimulatedAt(plan, ws, steps, maps, n) && SimulatedAt(plan, ws, steps, maps, n + 1);
        PutEffect(maps[n], "k", "v", 0);
        assert false;
      }
    }
  }

  /** Shard migration refines one map, in every run of every plan, if and only if a controller takes
      configurations one at a time. */
  lemma RefinementIffConsecutive(gap: nat)
    ensures (forall plan: Plan, ws, steps | plan.gap == gap && IsRun(plan, ws, steps) ::
               exists maps :: Explains(plan, ws, steps, maps))
            <==> gap <= 1
  {
    if gap <= 1 {
      forall plan: Plan, ws, steps | plan.gap == gap && IsRun(plan, ws, steps)
        ensures exists maps :: Explains(plan, ws, steps, maps)
      {
        RefinesUnshardedMap(plan, ws, steps);
      }
    } else {
      var ws, steps := SkippingLosesWrites(gap);
      assert Passing(gap).gap == gap;
    }
  }
}
