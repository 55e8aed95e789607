/** Moving shards between groups: any number of controllers of `src/shardkv1/shardctrler/shardctrler.go`,
    possibly stale, drive Freeze, Install and Delete requests that execute late, again or out of
    order, while clients read and write. The groups together behave as one unsharded map. */
module ShardMigration {
  import opened KeyValue
  import opened ShardGroup

  /** Which group owns a shard in a configuration, which shard a key is in, and how far beyond the
      published configuration a controller may find the one it is to apply. A configuration number
      has one content. */
  datatype Plan = Plan(owner: (Num, Shard) -> Gid, shardOf: string -> Shard, gap: nat)

  ghost predicate PlanOk(plan: Plan) {
    && (forall sh: Shard :: plan.owner(NUM_FIRST, sh) == GID1)
    && (forall key :: plan.shardOf(key) < NSHARDS)
  }

  /** Configuration `num` gives the shard to another group. */
  predicate Moves(plan: Plan, num: Num, sh: Shard) {
    num > NUM_FIRST && sh < NSHARDS && plan.owner(num - 1, sh) != plan.owner(num, sh)
  }

  datatype Phase = Freezing | Installing(payload: Payload) | Deleting

  /** A controller is idle or, on its way from one configuration to another, has reached shard `sh`. */
  datatype Controller = Idle | Moving(start: Num, num: Num, sh: Shard, phase: Phase)

  /** A migration request and the group it is sent to. */
  datatype Message = Message(to: Gid, req: Request)

  datatype Answer = Answer(msg: Message, response: Response)

  /** Requests and answers are never removed, so they may arrive late, again or never. */
  datatype World = World(
    groups: map<Gid, Group>, published: Num,
    controllers: map<nat, Controller>,
    requests: set<Message>, answers: set<Answer>)

  datatype Step =
    | Begin(c: nat, num: Num)                  // read both configurations under the lock
    | Skip(c: nat)                             // the shard stays where it is
    | Send(c: nat)                             // FreezeShard, InstallShard or DeleteShard is called
    | Receive(c: nat, answer: Answer)          // the call returns
    | Publish(c: nat)                          // store the new configuration
    | GiveUp(c: nat)                           // lost the lock, or crashed
    | ExecuteMove(msg: Message)
    | ExecuteClient(g: Gid, req: Request)

  function GroupAt(w: World, g: Gid): Group {
    if g in w.groups then w.groups[g] else Fresh(g)
  }

  function ControllerAt(w: World, c: nat): Controller {
    if c in w.controllers then w.controllers[c] else Idle
  }

  /** The controller has a shard to move. */
  predicate Relocates(plan: Plan, m: Controller) {
    m.Moving? && m.sh < NSHARDS && plan.owner(m.start, m.sh) != plan.owner(m.num, m.sh)
  }

  /** The request a controller in this state sends. */
  function Wants(plan: Plan, m: Controller): Message
    requires m.Moving?
  {
    match m.phase
    case Freezing => Message(plan.owner(m.start, m.sh), Freeze(m.sh, m.num))
    case Installing(payload) => Message(plan.owner(m.num, m.sh), Install(m.sh, m.num, payload))
    case Deleting => Message(plan.owner(m.start, m.sh), Delete(m.sh, m.num))
  }

  /** What the controller does next; it ignores whether the group refused. */
  function Advance(m: Controller, response: Response): Controller
    requires m.Moving?
  {
    match m.phase
    case Freezing => m.(phase := Installing(if response.FrozenAs? then response.payload else Nothing))
    case Installing(_) => m.(phase := Deleting)
    case Deleting => Moving(m.start, m.num, m.sh + 1, Freezing)
  }

  predicate Enabled(plan: Plan, w: World, step: Step) {
    match step
    case Begin(c, num) => w.published < num <= w.published + plan.gap
    case Skip(c) =>
      var m := ControllerAt(w, c);
      m.Moving? && m.phase.Freezing? && m.sh < NSHARDS && !Relocates(plan, m)
    case Send(c) => Relocates(plan, ControllerAt(w, c))
    case Receive(c, answer) =>
      var m := ControllerAt(w, c);
      Relocates(plan, m) && answer in w.answers && answer.msg == Wants(plan, m)
    case Publish(c) =>
      var m := ControllerAt(w, c);
      m.Moving? && m.sh == NSHARDS && m.phase.Freezing?
    case GiveUp(c) => true
    case ExecuteMove(msg) => msg in w.requests
    case ExecuteClient(g, req) => req.PutKey? || req.GetKey?
  }

  function ResponseOf(plan: Plan, w: World, g: Gid, req: Request): Response {
    DoOp(GroupAt(w, g), plan.shardOf, req).1
  }

  function Executed(plan: Plan, w: World, g: Gid, req: Request): World {
    w.(groups := w.groups[g := DoOp(GroupAt(w, g), plan.shardOf, req).0])
  }

  function Apply(plan: Plan, w: World, step: Step): World
    requires Enabled(plan, w, step)
  {
    match step
    case Begin(c, num) => w.(controllers := w.controllers[c := Moving(w.published, num, 0, Freezing)])
    case Skip(c) =>
      var m := ControllerAt(w, c);
      w.(controllers := w.controllers[c := Moving(m.start, m.num, m.sh + 1, Freezing)])
    case Send(c) => w.(requests := w.requests + {Wants(plan, ControllerAt(w, c))})
    case Receive(c, answer) => w.(controllers := w.controllers[c := Advance(ControllerAt(w, c), answer.response)])
    case Publish(c) =>
      var m := ControllerAt(w, c);
      w.(published := if w.published >= m.num then w.published else m.num, controllers := w.controllers[c := Idle])
    case GiveUp(c) => w.(controllers := w.controllers[c := Idle])
    case ExecuteMove(msg) =>
      var r := ResponseOf(plan, w, msg.to, msg.req);
      Executed(plan, w, msg.to, msg.req).(answers := w.answers + {Answer(msg, r)})
    case ExecuteClient(g, req) => Executed(plan, w, g, req)
  }

  function Start(): World {
    World(map[], NUM_FIRST, map[], {}, {})
  }

  predicate StepAt(plan: Plan, ws: seq<World>, steps: seq<Step>, k: nat)
    requires k < |steps| && |ws| == |steps| + 1
  {
    Enabled(plan, ws[k], steps[k]) && ws[k + 1] == Apply(plan, ws[k], steps[k])
  }

  ghost predicate IsRun(plan: Plan, ws: seq<World>, steps: seq<Step>) {
    && PlanOk(plan) && |ws| == |steps| + 1 && ws[0] == Start()
    && forall k {:trigger StepAt(plan, ws, steps, k)} :: 0 <= k < |steps| ==> StepAt(plan, ws, steps, k)
  }

  // ----- the invariant -----

  /** `homes[sh]`: the configuration whose installation of the shard executed last. */
  type Homes = seq<Num>

  /** Configuration `num` has been carried out for the shard. */
  predicate Settled(homes: Homes, sh: Shard, num: Num) {
    sh < |homes| && num <= homes[sh]
  }

  /** The table holds what the unsharded map holds of the shard. */
  ghost predicate Holds(plan: Plan, abs: Store, sh: Shard, table: Store) {
    forall key :: plan.shardOf(key) == sh ==>
      (key in table <==> key in abs) && (key in table ==> table[key] == abs[key])
  }

  function Home(plan: Plan, w: World, homes: Homes, sh: Shard): Group
    requires sh < |homes|
  {
    GroupAt(w, plan.owner(homes[sh], sh))
  }

  /** The shard is being moved: frozen at its home for the next configuration, not yet installed. */
  predicate InTransit(plan: Plan, w: World, homes: Homes, sh: Shard, num: Num)
    requires sh < |homes|
  {
    num == w.published + 1 && homes[sh] < num && ConfigOf(Home(plan, w, homes, sh), sh) == Config(Frozen, num)
  }

  /** The payload is what the next owner must get, if it still matters. */
  predicate PayloadOk(plan: Plan, w: World, homes: Homes, sh: Shard, num: Num, payload: Payload) {
    Settled(homes, sh, num)
    || (sh < |homes| && InTransit(plan, w, homes, sh, num)
        && payload == Contents(TableOf(Home(plan, w, homes, sh), sh)))
  }

  ghost predicate ShardOk(plan: Plan, w: World, homes: Homes, abs: Store, sh: Shard)
    requires sh < |homes|
  {
    var m := homes[sh];
    var config := ConfigOf(Home(plan, w, homes, sh), sh);
    && NUM_FIRST <= m <= w.published + 1
    && (m == NUM_FIRST || Moves(plan, m, sh))
    && (forall num: Num {:trigger plan.owner(num, sh)} :: m <= num <= w.published ==> plan.owner(num, sh) == plan.owner(m, sh))
    && (config == Config(Working, m) || (Moves(plan, w.published + 1, sh) && InTransit(plan, w, homes, sh, w.published + 1)))
    && Holds(plan, abs, sh, TableOf(Home(plan, w, homes, sh), sh))
  }

  /** A group that is not the home of the shard is not working on it and has seen nothing newer; one
      that was given the shard knows so. */
  ghost predicate AwayOk(plan: Plan, w: World, homes: Homes, sh: Shard, g: Gid)
    requires sh < |homes|
  {
    var config := ConfigOf(GroupAt(w, g), sh);
    && (g != plan.owner(homes[sh], sh) ==> config.state != Working && config.version <= homes[sh])
    && (forall num: Num {:trigger Moves(plan, num, sh)} ::
          Moves(plan, num, sh) && num <= homes[sh] && g == plan.owner(num, sh) ==> num <= config.version)
  }

  predicate MessageOk(plan: Plan, w: World, homes: Homes, msg: Message) {
    match msg.req
    case Freeze(sh, num) =>
      Moves(plan, num, sh) && num <= w.published + 1 && msg.to == plan.owner(num - 1, sh)
    case Install(sh, num, payload) =>
      Moves(plan, num, sh) && num <= w.published + 1 && msg.to == plan.owner(num, sh)
      && PayloadOk(plan, w, homes, sh, num, payload)
    case Delete(sh, num) =>
      Moves(plan, num, sh) && num <= w.published + 1 && msg.to == plan.owner(num - 1, sh) && Settled(homes, sh, num)
    case _ => false
  }

  predicate AnswerOk(plan: Plan, w: World, homes: Homes, a: Answer) {
    a.msg in w.requests &&
    match a.msg.req
    case Freeze(sh, num) => a.response.FrozenAs? && PayloadOk(plan, w, homes, sh, num, a.response.payload)
    case Install(sh, num, _) => Settled(homes, sh, num)
    case Delete(sh, num) => true
    case _ => false
  }

  predicate ControllerOk(plan: Plan, w: World, homes: Homes, m: Controller) {
    m.Moving? ==>
      && NUM_FIRST < m.num <= w.published + 1 && m.start == m.num - 1 && m.sh <= NSHARDS
      && (forall sh :: 0 <= sh < m.sh && Moves(plan, m.num, sh) ==> Settled(homes, sh, m.num))
      && match m.phase
         case Freezing => true
         case Installing(payload) => Moves(plan, m.num, m.sh) && PayloadOk(plan, w, homes, m.sh, m.num, payload)
         case Deleting => Moves(plan, m.num, m.sh) && Settled(homes, m.sh, m.num)
  }

  ghost predicate Inv(plan: Plan, w: World, homes: Homes, abs: Store) {
    && |homes| == NSHARDS && NUM_FIRST <= w.published
    && (forall sh {:trigger ShardOk(plan, w, homes, abs, sh)} :: 0 <= sh < NSHARDS ==> ShardOk(plan, w, homes, abs, sh))
    && (forall sh, g {:trigger AwayOk(plan, w, homes, sh, g)} :: 0 <= sh < NSHARDS ==> AwayOk(plan, w, homes, sh, g))
    && (forall msg {:trigger MessageOk(plan, w, homes, msg)} :: msg in w.requests ==> MessageOk(plan, w, homes, msg))
    && (forall a {:trigger AnswerOk(plan, w, homes, a)} :: a in w.answers ==> AnswerOk(plan, w, homes, a))
    && (forall c {:trigger ControllerAt(w, c)} :: ControllerOk(plan, w, homes, ControllerAt(w, c)))
  }

  // ----- what a step leaves alone -----

  /** No group's copy of the shard changes. */
  ghost predicate SameShard(w: World, w': World, sh: Shard) {
    && w'.published == w.published
    && forall g {:trigger GroupAt(w', g)} ::
         ConfigOf(GroupAt(w', g), sh) == ConfigOf(GroupAt(w, g), sh) && TableOf(GroupAt(w', g), sh) == TableOf(GroupAt(w, g), sh)
  }

  ghost predicate SameKeys(plan: Plan, abs: Store, abs': Store, sh: Shard) {
    forall key :: plan.shardOf(key) == sh ==> (key in abs' <==> key in abs) && (key in abs ==> abs'[key] == abs[key])
  }

  /** Payloads under way stay good. */
  ghost predicate PayloadsKept(plan: Plan, w: World, homes: Homes, w': World, homes': Homes, sh: Shard) {
    forall num: Num, payload {:trigger PayloadOk(plan, w', homes', sh, num, payload)} ::
      PayloadOk(plan, w, homes, sh, num, payload) ==> PayloadOk(plan, w', homes', sh, num, payload)
  }

  /** The shard's part of the invariant. */
  ghost predicate LocalOk(plan: Plan, w: World, homes: Homes, abs: Store, sh: Shard)
    requires sh < |homes|
  {
    ShardOk(plan, w, homes, abs, sh) && forall g {:trigger AwayOk(plan, w, homes, sh, g)} :: AwayOk(plan, w, homes, sh, g)
  }

  lemma LocalFrame(plan: Plan, w: World, w': World, homes: Homes, homes': Homes, abs: Store, abs': Store, sh: Shard)
    requires sh < |homes| == |homes'| && homes'[sh] == homes[sh] && LocalOk(plan, w, homes, abs, sh)
    requires SameShard(w, w', sh) && SameKeys(plan, abs, abs', sh)
    ensures LocalOk(plan, w', homes', abs', sh) && PayloadsKept(plan, w, homes, w', homes', sh)
  {
    forall g ensures AwayOk(plan, w', homes', sh, g) { assert AwayOk(plan, w, homes, sh, g); }
  }

  /** A request at one group changes only its own shard there. */
  lemma OtherShardsSame(plan: Plan, w: World, g: Gid, req: Request, sh: Shard)
    requires sh != ShardOfRequest(plan.shardOf, req)
    ensures SameShard(w, Executed(plan, w, g, req), sh)
  {
    RequestIsLocal(GroupAt(w, g), plan.shardOf, req);
  }

  lemma SameGroupsSame(w: World, w1: World, w': World, sh: Shard)
    requires SameShard(w, w1, sh) && w'.groups == w1.groups && w'.published == w1.published
    ensures SameShard(w, w', sh)
  {
    forall g
      ensures ConfigOf(GroupAt(w', g), sh) == ConfigOf(GroupAt(w, g), sh) && TableOf(GroupAt(w', g), sh) == TableOf(GroupAt(w, g), sh)
    {
      assert GroupAt(w', g) == GroupAt(w1, g);
    }
  }

  /** Settled shards stay settled. */
  predicate HomesGrow(homes: Homes, homes': Homes) {
    |homes'| == |homes| && forall sh :: 0 <= sh < |homes| ==> homes[sh] <= homes'[sh]
  }

  /** The parts of the invariant put together after a step. */
  lemma Assemble(plan: Plan, w: World, homes: Homes, abs: Store, w': World, homes': Homes, abs': Store)
    requires Inv(plan, w, homes, abs) && HomesGrow(homes, homes') && w.published <= w'.published
    requires w.requests <= w'.requests && w.answers <= w'.answers
    requires forall sh {:trigger LocalOk(plan, w', homes', abs', sh)} :: 0 <= sh < NSHARDS ==> LocalOk(plan, w', homes', abs', sh)
    requires forall sh {:trigger PayloadsKept(plan, w, homes, w', homes', sh)} ::
               0 <= sh < NSHARDS ==> PayloadsKept(plan, w, homes, w', homes', sh)
    requires forall msg {:trigger MessageOk(plan, w', homes', msg)} ::
               msg in w'.requests - w.requests ==> MessageOk(plan, w', homes', msg)
    requires forall a {:trigger AnswerOk(plan, w', homes', a)} :: a in w'.answers - w.answers ==> AnswerOk(plan, w', homes', a)
    requires forall c {:trigger ControllerAt(w', c)} ::
               ControllerAt(w', c) == ControllerAt(w, c) || ControllerOk(plan, w', homes', ControllerAt(w', c))
    ensures Inv(plan, w', homes', abs')
  {
    forall sh | 0 <= sh < NSHARDS ensures ShardOk(plan, w', homes', abs', sh) { assert LocalOk(plan, w', homes', abs', sh); }
    forall sh, g | 0 <= sh < NSHARDS ensures AwayOk(plan, w', homes', sh, g) { assert LocalOk(plan, w', homes', abs', sh); }
    forall msg | msg in w'.requests ensures MessageOk(plan, w', homes', msg) {
      if msg in w.requests {
        assert MessageOk(plan, w, homes, msg);
        if msg.req.Install? { assert PayloadsKept(plan, w, homes, w', homes', msg.req.shard); }
      }
    }
    forall a | a in w'.answers ensures AnswerOk(plan, w', homes', a) {
      if a in w.answers {
        assert AnswerOk(plan, w, homes, a) && MessageOk(plan, w, homes, a.msg);
        if a.msg.req.Freeze? { assert PayloadsKept(plan, w, homes, w', homes', a.msg.req.shard); }
      }
    }
    forall c ensures ControllerOk(plan, w', homes', ControllerAt(w', c)) {
      var m := ControllerAt(w, c);
      assert ControllerOk(plan, w, homes, m);
      if m.Moving? && m.phase.Installing? { assert PayloadsKept(plan, w, homes, w', homes', m.sh); }
    }
  }

  // ----- executing migration requests -----

  /** The home's copy is unchanged and other groups' copies change only in allowed ways. */
  lemma AwayRequest(plan: Plan, w: World, homes: Homes, abs: Store, g: Gid, req: Request, sh: Shard)
    requires sh < |homes| && LocalOk(plan, w, homes, abs, sh) && sh == ShardOfRequest(plan.shardOf, req)
    requires var g' := DoOp(GroupAt(w, g), plan.shardOf, req).0;
             g' == GroupAt(w, g)
             || (g != plan.owner(homes[sh], sh) && ConfigOf(g', sh).state != Working && ConfigOf(g', sh).version <= homes[sh])
    ensures var w' := Executed(plan, w, g, req);
            LocalOk(plan, w', homes, abs, sh) && PayloadsKept(plan, w, homes, w', homes, sh)
  {
    RequestIsLocal(GroupAt(w, g), plan.shardOf, req);
    AwayChange(plan, w, homes, abs, g, DoOp(GroupAt(w, g), plan.shardOf, req).0, sh);
  }

  lemma AwayChange(plan: Plan, w: World, homes: Homes, abs: Store, g: Gid, g': Group, sh: Shard)
    requires sh < |homes| && LocalOk(plan, w, homes, abs, sh)
    requires ConfigOf(GroupAt(w, g), sh).version <= ConfigOf(g', sh).version
    requires g' == GroupAt(w, g)
             || (g != plan.owner(homes[sh], sh) && ConfigOf(g', sh).state != Working && ConfigOf(g', sh).version <= homes[sh])
    ensures var w' := w.(groups := w.groups[g := g']);
            LocalOk(plan, w', homes, abs, sh) && PayloadsKept(plan, w, homes, w', homes, sh)
  {
    var w' := w.(groups := w.groups[g := g']);
    forall h ensures AwayOk(plan, w', homes, sh, h) { assert AwayOk(plan, w, homes, sh, h); }
  }

  /** A freeze for the next configuration reaches the home: it stops working and hands out its table. */
  lemma FreezeAtHome(plan: Plan, w: World, homes: Homes, abs: Store, sh: Shard, num: Num)
    requires sh < |homes| && LocalOk(plan, w, homes, abs, sh)
    requires num == w.published + 1 && homes[sh] < num && Moves(plan, num, sh)
    ensures var g := plan.owner(homes[sh], sh);
            var w' := Executed(plan, w, g, Freeze(sh, num));
            && LocalOk(plan, w', homes, abs, sh) && PayloadsKept(plan, w, homes, w', homes, sh)
            && ResponseOf(plan, w, g, Freeze(sh, num)).FrozenAs?
            && PayloadOk(plan, w', homes, sh, num, ResponseOf(plan, w, g, Freeze(sh, num)).payload)
  {
    var home := Home(plan, w, homes, sh);
    MoveOutcome(home, plan.shardOf, sh, num, Nothing);
    HomeFrozen(plan, w, homes, abs, DoOp(home, plan.shardOf, Freeze(sh, num)).0, sh, num);
  }

  lemma HomeFrozen(plan: Plan, w: World, homes: Homes, abs: Store, home: Group, sh: Shard, num: Num)
    requires sh < |homes| && LocalOk(plan, w, homes, abs, sh)
    requires num == w.published + 1 && homes[sh] < num && Moves(plan, num, sh)
    requires ConfigOf(home, sh) == Config(Frozen, num) && TableOf(home, sh) == TableOf(Home(plan, w, homes, sh), sh)
    ensures var w' := w.(groups := w.groups[plan.owner(homes[sh], sh) := home]);
            && LocalOk(plan, w', homes, abs, sh) && PayloadsKept(plan, w, homes, w', homes, sh)
            && PayloadOk(plan, w', homes, sh, num, Contents(TableOf(home, sh)))
  {
    var w' := w.(groups := w.groups[plan.owner(homes[sh], sh) := home]);
    forall h ensures AwayOk(plan, w', homes, sh, h) { assert AwayOk(plan, w, homes, sh, h); }
  }

  /** A freeze for a configuration already carried out changes nothing that matters. */
  lemma FreezeLate(plan: Plan, w: World, homes: Homes, abs: Store, sh: Shard, num: Num)
    requires sh < |homes| && LocalOk(plan, w, homes, abs, sh) && num <= homes[sh] && Moves(plan, num, sh)
    ensures var g := plan.owner(num - 1, sh);
            var w' := Executed(plan, w, g, Freeze(sh, num));
            LocalOk(plan, w', homes, abs, sh) && PayloadsKept(plan, w, homes, w', homes, sh)
  {
    var g := plan.owner(num - 1, sh);
    assert AwayOk(plan, w, homes, sh, g);
    AwayRequest(plan, w, homes, abs, g, Freeze(sh, num), sh);
  }

  lemma DeleteLate(plan: Plan, w: World, homes: Homes, abs: Store, sh: Shard, num: Num)
    requires sh < |homes| && LocalOk(plan, w, homes, abs, sh) && num <= homes[sh] && Moves(plan, num, sh)
    ensures var w' := Executed(plan, w, plan.owner(num - 1, sh), Delete(sh, num));
            LocalOk(plan, w', homes, abs, sh) && PayloadsKept(plan, w, homes, w', homes, sh)
  {
    var g := plan.owner(num - 1, sh);
    assert AwayOk(plan, w, homes, sh, g);
    AwayRequest(plan, w, homes, abs, g, Delete(sh, num), sh);
  }

  lemma InstallLate(plan: Plan, w: World, homes: Homes, abs: Store, sh: Shard, num: Num, payload: Payload)
    requires sh < |homes| && LocalOk(plan, w, homes, abs, sh) && num <= homes[sh] && Moves(plan, num, sh)
    ensures var w' := Executed(plan, w, plan.owner(num, sh), Install(sh, num, payload));
            LocalOk(plan, w', homes, abs, sh) && PayloadsKept(plan, w, homes, w', homes, sh)
  {
    var g := plan.owner(num, sh);
    assert AwayOk(plan, w, homes, sh, g);
    AwayRequest(plan, w, homes, abs, g, Install(sh, num, payload), sh);
  }

  /** The installation that counts: the next owner gets exactly the frozen table and starts working. */
  lemma InstallMoves(plan: Plan, w: World, homes: Homes, abs: Store, sh: Shard, num: Num, payload: Payload)
    requires sh < |homes| && LocalOk(plan, w, homes, abs, sh) && homes[sh] < num && Moves(plan, num, sh)
    requires PayloadOk(plan, w, homes, sh, num, payload)
    ensures var w' := Executed(plan, w, plan.owner(num, sh), Install(sh, num, payload));
            && LocalOk(plan, w', homes[sh := num], abs, sh) && PayloadsKept(plan, w, homes, w', homes[sh := num], sh)
            && payload.Contents?
  {
    var g := plan.owner(num, sh);
    var w', homes' := Executed(plan, w, g, Install(sh, num, payload)), homes[sh := num];
    assert plan.owner(num - 1, sh) == plan.owner(homes[sh], sh);
    assert AwayOk(plan, w, homes, sh, g);
    forall h ensures AwayOk(plan, w', homes', sh, h) { assert AwayOk(plan, w, homes, sh, h); }
  }

  lemma InvLocal(plan: Plan, w: World, homes: Homes, abs: Store, sh: Shard)
    requires Inv(plan, w, homes, abs) && sh < NSHARDS
    ensures LocalOk(plan, w, homes, abs, sh)
  {
    assert ShardOk(plan, w, homes, abs, sh);
    forall g ensures AwayOk(plan, w, homes, sh, g) {}
  }

  /** What a migration request does to its own shard, and which installation is the last after it. */
  lemma MoveIsLocal(plan: Plan, w: World, homes: Homes, abs: Store, msg: Message) returns (homes': Homes)
    requires Inv(plan, w, homes, abs) && msg in w.requests
    ensures HomesGrow(homes, homes') && ShardOfRequest(plan.shardOf, msg.req) < NSHARDS
    ensures var sh, w' := ShardOfRequest(plan.shardOf, msg.req), Executed(plan, w, msg.to, msg.req);
            && LocalOk(plan, w', homes', abs, sh) && PayloadsKept(plan, w, homes, w', homes', sh)
            && (forall s :: 0 <= s < NSHARDS && s != sh ==> homes'[s] == homes[s])
            && AnswerOk(plan, w'.(answers := {}), homes', Answer(msg, ResponseOf(plan, w, msg.to, msg.req)))
    ensures msg.req.Install? && ResponseOf(plan, w, msg.to, msg.req) == Installed(OK) ==> msg.req.payload.Contents?
  {
    assert MessageOk(plan, w, homes, msg);
    var sh := ShardOfRequest(plan.shardOf, msg.req);
    InvLocal(plan, w, homes, abs, sh);
    homes' := homes;
    match msg.req
    case Freeze(_, num) =>
      if num <= homes[sh] {
        FreezeLate(plan, w, homes, abs, sh, num);
      } else {
        assert plan.owner(num - 1, sh) == plan.owner(homes[sh], sh);
        FreezeAtHome(plan, w, homes, abs, sh, num);
      }
    case Install(_, num, payload) =>
      if num <= homes[sh] {
        assert AwayOk(plan, w, homes, sh, msg.to);
        InstallLate(plan, w, homes, abs, sh, num, payload);
      } else {
        InstallMoves(plan, w, homes, abs, sh, num, payload);
        homes' := homes[sh := num];
      }
    case Delete(_, num) => DeleteLate(plan, w, homes, abs, sh, num);
  }

  /** Shards a request is not about keep their part of the invariant. */
  lemma OtherShardKept(plan: Plan, w: World, homes: Homes, abs: Store, g: Gid, req: Request, w': World,
                       homes': Homes, abs': Store, s: Shard)
    requires s < |homes| && LocalOk(plan, w, homes, abs, s) && s != ShardOfRequest(plan.shardOf, req)
    requires w'.groups == Executed(plan, w, g, req).groups && w'.published == w.published
    requires |homes'| == |homes| && homes'[s] == homes[s] && SameKeys(plan, abs, abs', s)
    ensures LocalOk(plan, w', homes', abs', s) && PayloadsKept(plan, w, homes, w', homes', s)
  {
    OtherShardsSame(plan, w, g, req, s);
    SameGroupsSame(w, Executed(plan, w, g, req), w', s);
    LocalFrame(plan, w, w', homes, homes', abs, abs', s);
  }

  lemma MoveKeepsInv(plan: Plan, w: World, homes: Homes, abs: Store, msg: Message) returns (homes': Homes)
    requires Inv(plan, w, homes, abs) && msg in w.requests
    ensures Inv(plan, Apply(plan, w, ExecuteMove(msg)), homes', abs)
    ensures msg.req.Install? && ResponseOf(plan, w, msg.to, msg.req) == Installed(OK) ==> msg.req.payload.Contents?
  {
    homes' := MoveIsLocal(plan, w, homes, abs, msg);
    var sh := ShardOfRequest(plan.shardOf, msg.req);
    var w1, w' := Executed(plan, w, msg.to, msg.req), Apply(plan, w, ExecuteMove(msg));
    var answer := Answer(msg, ResponseOf(plan, w, msg.to, msg.req));
    forall s | 0 <= s < NSHARDS
      ensures LocalOk(plan, w', homes', abs, s) && PayloadsKept(plan, w, homes, w', homes', s)
    {
      if s == sh {
        SameGroups(plan, w1, w', homes', abs, s);
        assert PayloadsKept(plan, w, homes, w1, homes', s);
      } else {
        InvLocal(plan, w, homes, abs, s);
        OtherShardKept(plan, w, homes, abs, msg.to, msg.req, w', homes', abs, s);
      }
    }
    assert AnswerOk(plan, w1.(answers := {}), homes', answer);
    assert AnswerOk(plan, w', homes', answer);
    Assemble(plan, w, homes, abs, w', homes', abs);
  }

  /** Groups and the published number are all that a shard's invariant depends on. */
  lemma SameGroups(plan: Plan, w: World, w': World, homes: Homes, abs: Store, sh: Shard)
    requires sh < |homes| && w'.groups == w.groups && w'.published == w.published && LocalOk(plan, w, homes, abs, sh)
    ensures LocalOk(plan, w', homes, abs, sh) && PayloadsKept(plan, w, homes, w', homes, sh)
  {
    assert SameShard(w, w', sh);
    LocalFrame(plan, w, w', homes, homes, abs, abs, sh);
  }

  // ----- executing client requests -----

  predicate WorksOn(w: World, g: Gid, sh: Shard) {
    ConfigOf(GroupAt(w, g), sh).state == Working
  }

  /** What the unsharded map does when group `g` executes the step. A group that works on the key's shard
      answers a client as the map does; any other group, and no working one, says `ErrWrongGroup`. */
  ghost predicate Simulates(plan: Plan, w: World, step: Step, abs: Store, abs': Store) {
    match step
    case ExecuteClient(g, PutKey(key, value, version)) =>
      var r := ResponseOf(plan, w, g, step.req);
      && r.Stored? && (r.err == ErrWrongGroup <==> !WorksOn(w, g, plan.shardOf(key)))
      && if WorksOn(w, g, plan.shardOf(key)) then (abs', r.err) == Put(abs, key, value, version) else abs' == abs
    case ExecuteClient(g, GetKey(key)) =>
      var r := ResponseOf(plan, w, g, step.req);
      && abs' == abs && r.Fetched? && (r.got.err == ErrWrongGroup <==> !WorksOn(w, g, plan.shardOf(key)))
      && (WorksOn(w, g, plan.shardOf(key)) ==> r.got == Get(abs, key))
    case _ => abs' == abs
  }

  /** A write runs only at the home of its shard, while it works, and does there what it does to the map. */
  lemma PutAtHome(plan: Plan, w: World, homes: Homes, abs: Store, g: Gid, key: string, value: string, version: nat)
    requires var sh := plan.shardOf(key);
             sh < |homes| && LocalOk(plan, w, homes, abs, sh) && ConfigOf(GroupAt(w, g), sh).state == Working
    ensures var sh, w', r := plan.shardOf(key), Executed(plan, w, g, PutKey(key, value, version)), Put(abs, key, value, version);
            && LocalOk(plan, w', homes, r.0, sh) && PayloadsKept(plan, w, homes, w', homes, sh)
            && ResponseOf(plan, w, g, PutKey(key, value, version)) == Stored(r.1)
  {
    var sh, w', abs' := plan.shardOf(key), Executed(plan, w, g, PutKey(key, value, version)), Put(abs, key, value, version).0;
    assert AwayOk(plan, w, homes, sh, g);
    forall h ensures AwayOk(plan, w', homes, sh, h) { assert AwayOk(plan, w, homes, sh, h); }
    assert GroupAt(w', g) == DoOp(GroupAt(w, g), plan.shardOf, PutKey(key, value, version)).0;
    assert TableOf(GroupAt(w', g), sh) == Put(TableOf(GroupAt(w, g), sh), key, value, version).0;
    assert ShardOk(plan, w', homes, abs', sh);
  }

  /** A read, or a request the group refuses, changes nothing; a read that is answered sees the map. */
  lemma ReadOrRefused(plan: Plan, w: World, homes: Homes, abs: Store, g: Gid, req: Request)
    requires req.PutKey? || req.GetKey?
    requires var sh := ShardOfRequest(plan.shardOf, req);
             && sh < |homes| && LocalOk(plan, w, homes, abs, sh)
             && (req.PutKey? ==> ConfigOf(GroupAt(w, g), sh).state != Working)
    ensures var sh, w' := ShardOfRequest(plan.shardOf, req), Executed(plan, w, g, req);
            && LocalOk(plan, w', homes, abs, sh) && PayloadsKept(plan, w, homes, w', homes, sh)
            && Simulates(plan, w, ExecuteClient(g, req), abs, abs)
  {
    var sh, w' := ShardOfRequest(plan.shardOf, req), Executed(plan, w, g, req);
    assert AwayOk(plan, w, homes, sh, g);
    assert SameShard(w, w', sh);
    LocalFrame(plan, w, w', homes, homes, abs, abs, sh);
  }

  /** A client request acts on the unsharded map as its answer says. */
  lemma ClientIsLocal(plan: Plan, w: World, homes: Homes, abs: Store, g: Gid, req: Request) returns (abs': Store)
    requires PlanOk(plan) && Inv(plan, w, homes, abs) && (req.PutKey? || req.GetKey?)
    ensures Simulates(plan, w, ExecuteClient(g, req), abs, abs')
    ensures var sh, w' := ShardOfRequest(plan.shardOf, req), Executed(plan, w, g, req);
            && sh < NSHARDS && LocalOk(plan, w', homes, abs', sh) && PayloadsKept(plan, w, homes, w', homes, sh)
            && forall s :: s != sh ==> SameKeys(plan, abs, abs', s)
  {
    var sh := ShardOfRequest(plan.shardOf, req);
    InvLocal(plan, w, homes, abs, sh);
    abs' := abs;
    if ConfigOf(GroupAt(w, g), sh).state == Working && req.PutKey? {
      PutAtHome(plan, w, homes, abs, g, req.key, req.value, req.version);
      abs' := Put(abs, req.key, req.value, req.version).0;
    } else {
      ReadOrRefused(plan, w, homes, abs, g, req);
    }
  }

  lemma ClientKeepsInv(plan: Plan, w: World, homes: Homes, abs: Store, g: Gid, req: Request) returns (abs': Store)
    requires PlanOk(plan) && Inv(plan, w, homes, abs) && (req.PutKey? || req.GetKey?)
    ensures Inv(plan, Apply(plan, w, ExecuteClient(g, req)), homes, abs')
    ensures Simulates(plan, w, ExecuteClient(g, req), abs, abs')
  {
    abs' := ClientIsLocal(plan, w, homes, abs, g, req);
    var sh, w' := ShardOfRequest(plan.shardOf, req), Executed(plan, w, g, req);
    forall s | 0 <= s < NSHARDS
      ensures LocalOk(plan, w', homes, abs', s) && PayloadsKept(plan, w, homes, w', homes, s)
    {
      if s != sh {
        InvLocal(plan, w, homes, abs, s);
        OtherShardKept(plan, w, homes, abs, g, req, w', homes, abs', s);
      }
    }
    Assemble(plan, w, homes, abs, w', homes, abs');
  }

  // ----- the controllers' own steps -----

  /** Steps that touch neither a group nor the published configuration. */
  lemma ControllersKeepInv(plan: Plan, w: World, homes: Homes, abs: Store, w': World)
    requires Inv(plan, w, homes, abs)
    requires w'.groups == w.groups && w'.published == w.published && w'.answers == w.answers && w.requests <= w'.requests
    requires forall msg {:trigger MessageOk(plan, w', homes, msg)} ::
               msg in w'.requests - w.requests ==> MessageOk(plan, w', homes, msg)
    requires forall c {:trigger ControllerAt(w', c)} ::
               ControllerAt(w', c) == ControllerAt(w, c) || ControllerOk(plan, w', homes, ControllerAt(w', c))
    ensures Inv(plan, w', homes, abs)
  {
    forall sh | 0 <= sh < NSHARDS ensures LocalOk(plan, w', homes, abs, sh) && PayloadsKept(plan, w, homes, w', homes, sh) {
      InvLocal(plan, w, homes, abs, sh);
      SameGroups(plan, w, w', homes, abs, sh);
    }
    Assemble(plan, w, homes, abs, w', homes, abs);
  }

  lemma ControllerKeepsInv(plan: Plan, w: World, homes: Homes, abs: Store, step: Step)
    requires plan.gap <= 1 && Inv(plan, w, homes, abs) && Enabled(plan, w, step)
    requires step.Begin? || step.Skip? || step.Send? || step.Receive? || step.GiveUp?
    ensures Inv(plan, Apply(plan, w, step), homes, abs)
  {
    var w' := Apply(plan, w, step);
    var m := ControllerAt(w, step.c);
    assert ControllerOk(plan, w, homes, m);
    if step.Receive? { assert AnswerOk(plan, w, homes, step.answer); }
    assert ControllerOk(plan, w, homes, ControllerAt(w', step.c));
    assert step.Send? ==> MessageOk(plan, w, homes, Wants(plan, m));
    forall msg | msg in w'.requests - w.requests ensures MessageOk(plan, w', homes, msg) {
      assert MessageOk(plan, w, homes, msg);
    }
    forall c ensures ControllerAt(w', c) == ControllerAt(w, c) || ControllerOk(plan, w', homes, ControllerAt(w', c)) {}
    ControllersKeepInv(plan, w, homes, abs, w');
  }

  /** When a controller has gone through every shard, configuration `num` is settled everywhere. */
  lemma PublishKeepsInv(plan: Plan, w: World, homes: Homes, abs: Store, c: nat)
    requires Inv(plan, w, homes, abs) && Enabled(plan, w, Publish(c))
    ensures Inv(plan, Apply(plan, w, Publish(c)), homes, abs)
  {
    var w', m := Apply(plan, w, Publish(c)), ControllerAt(w, c);
    assert ControllerOk(plan, w, homes, m);
    if w.published >= m.num {
      forall d ensures ControllerAt(w', d) == ControllerAt(w, d) || ControllerOk(plan, w', homes, ControllerAt(w', d)) {}
      ControllersKeepInv(plan, w, homes, abs, w');
    } else {
      forall sh | 0 <= sh < NSHARDS ensures LocalOk(plan, w', homes, abs, sh) && PayloadsKept(plan, w, homes, w', homes, sh) {
        InvLocal(plan, w, homes, abs, sh);
        PublishShard(plan, w, homes, abs, w', sh);
      }
      Assemble(plan, w, homes, abs, w', homes, abs);
    }
  }

  lemma PublishShard(plan: Plan, w: World, homes: Homes, abs: Store, w': World, sh: Shard)
    requires sh < |homes| && LocalOk(plan, w, homes, abs, sh) && sh < NSHARDS
    requires w'.groups == w.groups && w'.published == w.published + 1
    requires Moves(plan, w'.published, sh) ==> Settled(homes, sh, w'.published)
    ensures LocalOk(plan, w', homes, abs, sh) && PayloadsKept(plan, w, homes, w', homes, sh)
  {
    forall g ensures AwayOk(plan, w', homes, sh, g) { assert AwayOk(plan, w, homes, sh, g); }
    assert plan.owner(w'.published - 1, sh) == plan.owner(w.published, sh);
  }

  lemma StartInv(plan: Plan)
    requires PlanOk(plan)
    ensures Inv(plan, Start(), seq(NSHARDS, _ => NUM_FIRST), map[])
  {
    var w, homes := Start(), seq(NSHARDS, _ => NUM_FIRST);
    forall sh, g | 0 <= sh < NSHARDS ensures AwayOk(plan, w, homes, sh, g) {}
    forall sh | 0 <= sh < NSHARDS ensures ShardOk(plan, w, homes, map[], sh) {}
  }

  // ----- every run -----

  lemma StepKeepsInv(plan: Plan, w: World, homes: Homes, abs: Store, step: Step) returns (homes': Homes, abs': Store)
    requires PlanOk(plan) && plan.gap <= 1 && Inv(plan, w, homes, abs) && Enabled(plan, w, step)
    ensures Inv(plan, Apply(plan, w, step), homes', abs') && Simulates(plan, w, step, abs, abs')
    ensures step.ExecuteMove? && step.msg.req.Install? ==>
              ResponseOf(plan, w, step.msg.to, step.msg.req) == Installed(OK) ==> step.msg.req.payload.Contents?
  {
    homes', abs' := homes, abs;
    match step
    case ExecuteMove(msg) => homes' := MoveKeepsInv(plan, w, homes, abs, msg);
    case ExecuteClient(g, req) => abs' := ClientKeepsInv(plan, w, homes, abs, g, req);
    case Publish(c) => PublishKeepsInv(plan, w, homes, abs, c);
    case _ => ControllerKeepsInv(plan, w, homes, abs, step);
  }

  ghost predicate SimulatedAt(plan: Plan, ws: seq<World>, steps: seq<Step>, maps: seq<Store>, k: nat)
    requires k < |steps| && |ws| == |maps| == |steps| + 1
  {
    Simulates(plan, ws[k], steps[k], maps[k], maps[k + 1])
  }

  /** `maps` is a run of one unsharded map that answers every accepted request as the groups did. */
  ghost predicate Explains(plan: Plan, ws: seq<World>, steps: seq<Step>, maps: seq<Store>) {
    && |ws| == |maps| == |steps| + 1 && maps[0] == map[]
    && forall k {:trigger SimulatedAt(plan, ws, steps, maps, k)} :: 0 <= k < |steps| ==> SimulatedAt(plan, ws, steps, maps, k)
  }

  lemma {:induction false} RunExplained(plan: Plan, ws: seq<World>, steps: seq<Step>)
    returns (maps: seq<Store>, homes: Homes)
    requires IsRun(plan, ws, steps) && plan.gap <= 1
    ensures Explains(plan, ws, steps, maps) && Inv(plan, ws[|steps|], homes, maps[|steps|])
    decreases |steps|
  {
    if |steps| == 0 {
      StartInv(plan);
      return [map[]], seq(NSHARDS, _ => NUM_FIRST);
    }
    var n := |steps| - 1;
    var ws0, steps0 := ws[..n + 1], steps[..n];
    forall k | 0 <= k < n ensures StepAt(plan, ws0, steps0, k) { assert StepAt(plan, ws, steps, k); }
    var maps0, homes0 := RunExplained(plan, ws0, steps0);
    assert StepAt(plan, ws, steps, n);
    var homes', abs' := StepKeepsInv(plan, ws[n], homes0, maps0[n], steps[n]);
    maps, homes := maps0 + [abs'], homes';
    forall k | 0 <= k < |steps| ensures SimulatedAt(plan, ws, steps, maps, k) {
      if k < n { assert SimulatedAt(plan, ws0, steps0, maps0, k); }
    }
  }

  /** Shard migration refines one unsharded versioned map: whatever controllers do and however late,
      repeated or reordered their requests execute, every accepted Get and Put is answered as on the
      one map, which nothing else changes. */
  lemma RefinesUnshardedMap(plan: Plan, ws: seq<World>, steps: seq<Step>)
    requires IsRun(plan, ws, steps) && plan.gap <= 1
    ensures exists maps :: Explains(plan, ws, steps, maps)
  {
    var maps, homes := RunExplained(plan, ws, steps);
  }

  /** The prefix of a run is a run. */
  lemma Prefix(plan: Plan, ws: seq<World>, steps: seq<Step>, k: nat)
    requires IsRun(plan, ws, steps) && k <= |steps|
    ensures IsRun(plan, ws[..k + 1], steps[..k])
  {
    var ws', steps' := ws[..k + 1], steps[..k];
    forall i | 0 <= i < k ensures StepAt(plan, ws', steps', i) { assert StepAt(plan, ws, steps, i); }
  }

  /** At most one group ever works on a shard. */
  lemma OneWorkingGroup(plan: Plan, ws: seq<World>, steps: seq<Step>, k: nat, g: Gid, h: Gid, sh: Shard)
    requires IsRun(plan, ws, steps) && plan.gap <= 1 && k <= |steps| && sh < NSHARDS
    requires WorksOn(ws[k], g, sh) && WorksOn(ws[k], h, sh)
    ensures g == h
  {
    Prefix(plan, ws, steps, k);
    var maps, homes := RunExplained(plan, ws[..k + 1], steps[..k]);
    assert AwayOk(plan, ws[k], homes, sh, g) && AwayOk(plan, ws[k], homes, sh, h);
  }

  /** An installation that takes effect always installs what a freeze handed out, though the controller
      forwards an empty state after a refused freeze. */
  lemma InstallsFrozenState(plan: Plan, ws: seq<World>, steps: seq<Step>, k: nat, to: Gid, sh: Shard, num: Num,
                            payload: Payload)
    requires IsRun(plan, ws, steps) && plan.gap <= 1 && k < |steps|
    requires steps[k] == ExecuteMove(Message(to, Install(sh, num, payload)))
    requires ResponseOf(plan, ws[k], to, Install(sh, num, payload)) == Installed(OK)
    ensures payload.Contents?
  {
    Prefix(plan, ws, steps, k);
    var maps, homes := RunExplained(plan, ws[..k + 1], steps[..k]);
    assert StepAt(plan, ws, steps, k);
    var homes', abs' := StepKeepsInv(plan, ws[k], homes, maps[k], steps[k]);
  }

  // ----- accepted writes -----

  /** The step is a Put of the key that a group accepted with OK. */
  predicate Accepts(plan: Plan, ws: seq<World>, steps: seq<Step>, k: nat, key: string, value: string, version: nat)
    requires k < |steps| && |ws| == |steps| + 1
  {
    && steps[k].ExecuteClient? && steps[k].req == PutKey(key, value, version)
    && ResponseOf(plan, ws[k], steps[k].g, steps[k].req) == Stored(OK)
  }

  /** Versions of the one map never fall, and stay put unless a Put of the key is accepted. */
  lemma {:induction false} VersionsGrow(plan: Plan, ws: seq<World>, steps: seq<Step>, maps: seq<Store>, i: nat,
                                        j: nat, key: string)
    requires Explains(plan, ws, steps, maps) && i <= j <= |steps|
    ensures Get(maps[i], key).version <= Get(maps[j], key).version
    ensures Get(maps[i], key).version == Get(maps[j], key).version ==> Get(maps[i], key) == Get(maps[j], key)
    decreases j
  {
    if i < j {
      VersionsGrow(plan, ws, steps, maps, i, j - 1, key);
      assert SimulatedAt(plan, ws, steps, maps, j - 1);
      match steps[j - 1]
      case ExecuteClient(_, PutKey(other, value, version)) => PutEffect(maps[j - 1], other, value, version);
      case _ =>
    }
  }

  /** No accepted Put is lost: a Get accepted later, by whichever group, sees that Put's value, or the
      value of a Put accepted with a higher version. */
  lemma AcceptedPutSurvives(plan: Plan, ws: seq<World>, steps: seq<Step>, i: nat, j: nat,
                            key: string, value: string, version: nat)
    requires IsRun(plan, ws, steps) && plan.gap <= 1 && i < j < |steps|
    requires Accepts(plan, ws, steps, i, key, value, version)
    requires steps[j].ExecuteClient? && steps[j].req == GetKey(key)
    ensures var r := ResponseOf(plan, ws[j], steps[j].g, GetKey(key));
            && r.Fetched?
            && if WorksOn(ws[j], steps[j].g, plan.shardOf(key))
               then r.got == Got(value, version + 1, OK) || (r.got.err == OK && r.got.version > version + 1)
               else r.got.err == ErrWrongGroup
  {
    var maps, homes := RunExplained(plan, ws, steps);
    assert SimulatedAt(plan, ws, steps, maps, i) && SimulatedAt(plan, ws, steps, maps, j);
    PutEffect(maps[i], key, value, version);
    VersionsGrow(plan, ws, steps, maps, i + 1, j, key);
  }

  /** Two accepted Puts of a key never carry the same version. */
  lemma AcceptedVersionsDiffer(plan: Plan, ws: seq<World>, steps: seq<Step>, i: nat, j: nat,
                               key: string, value: string, value': string, version: nat, version': nat)
    requires IsRun(plan, ws, steps) && plan.gap <= 1 && i < j < |steps|
    requires Accepts(plan, ws, steps, i, key, value, version) && Accepts(plan, ws, steps, j, key, value', version')
    ensures version < version'
  {
    var maps, homes := RunExplained(plan, ws, steps);
    assert SimulatedAt(plan, ws, steps, maps, i) && SimulatedAt(plan, ws, steps, maps, j);
    PutEffect(maps[i], key, value, version);
    PutEffect(maps[j], key, value', version');
    VersionsGrow(plan, ws, steps, maps, i + 1, j, key);
  }
}
