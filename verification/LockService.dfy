/** The lock of `src/kvsrv1/lock/lock.go`, used by any number of clients over clerks whose requests
    and replies get lost. */
module LockService {
  import opened KeyValue
  import Clerk

  const AVAILABLE := "Available"

  /** Where a client is. `resynced`: it learned of its acquisition from `resync`, not from `OK`. */
  datatype Pc =
    | Idle
    | Acquiring(firstTry: bool)                    // inside the Put of Acquire
    | Resyncing                                    // inside the Get of resync
    | Holding(resynced: bool)
    | Releasing(firstTry: bool, resynced: bool)    // inside the Put of Release

  datatype Client = Client(id: string, version: nat, pc: Pc)

  datatype System = System(kv: Store, clients: seq<Client>)

  datatype Step =
    | Begin(i: nat)                                               // call Acquire or Release
    | LoseRequest(i: nat)
    | LoseReply(i: nat)                                           // the server executes, the clerk retries
    | Answer(i: nat)                                              // the server executes, the clerk returns
    | Elsewhere(key: string, value: string, version: nat)         // a Put to another key

  /** The `Put` a client has under way. */
  function PutOf(kv: Store, name: string, c: Client): (Store, Err) {
    Put(kv, name, if c.pc.Releasing? then AVAILABLE else c.id, c.version)
  }

  /** `resync` on what the `Get` returned. */
  function Resynced(c: Client, got: Got): Client {
    if got.value == c.id then c.(version := got.version + 1, pc := Holding(true))
    else if got.value == AVAILABLE then c.(version := got.version, pc := Acquiring(true))
    else c.(version := got.version + 1, pc := Acquiring(true))
  }

  /** What the client does with the clerk's answer to its `Put`. */
  function Answered(c: Client, err: Err): Client {
    if c.pc.Releasing? then c.(version := c.version + 1, pc := Idle)
    else if err == OK then c.(version := c.version + 1, pc := Holding(false))
    else if err == ErrVersion || err == ErrMaybe then c.(pc := Resyncing)
    else c.(pc := Acquiring(true))   // ErrNoKey: the loop calls Put again
  }

  /** What the clerk returns for the server's answer. */
  function ClerkErr(pc: Pc, err: Err): Err
    requires pc.Acquiring? || pc.Releasing?
  {
    if !pc.firstTry && err == ErrVersion then ErrMaybe else err
  }

  predicate Putting(c: Client) {
    c.pc.Acquiring? || c.pc.Releasing?
  }

  predicate Enabled(sys: System, name: string, step: Step) {
    match step
    case Begin(i) => i < |sys.clients| && (sys.clients[i].pc.Idle? || sys.clients[i].pc.Holding?)
    case LoseRequest(i) => i < |sys.clients| && (Putting(sys.clients[i]) || sys.clients[i].pc.Resyncing?)
    case LoseReply(i) => i < |sys.clients| && (Putting(sys.clients[i]) || sys.clients[i].pc.Resyncing?)
    case Answer(i) => i < |sys.clients| && (Putting(sys.clients[i]) || sys.clients[i].pc.Resyncing?)
    case Elsewhere(key, _, _) => key != name
  }

  function Retrying(c: Client): Client {
    match c.pc
    case Acquiring(_) => c.(pc := Acquiring(false))
    case Releasing(_, r) => c.(pc := Releasing(false, r))
    case _ => c
  }

  function Begun(c: Client): Client {
    match c.pc
    case Idle => c.(pc := Acquiring(true))
    case Holding(r) => c.(pc := Releasing(true, r))
    case _ => c
  }

  function Apply(sys: System, name: string, step: Step): System
    requires Enabled(sys, name, step)
  {
    match step
    case Begin(i) => sys.(clients := sys.clients[i := Begun(sys.clients[i])])
    case LoseRequest(i) => sys.(clients := sys.clients[i := Retrying(sys.clients[i])])
    case LoseReply(i) =>
      var c := sys.clients[i];
      if c.pc.Resyncing? then sys
      else System(PutOf(sys.kv, name, c).0, sys.clients[i := Retrying(c)])
    case Answer(i) =>
      var c := sys.clients[i];
      if c.pc.Resyncing? then sys.(clients := sys.clients[i := Resynced(c, Get(sys.kv, name))])
      else System(PutOf(sys.kv, name, c).0, sys.clients[i := Answered(c, ClerkErr(c.pc, PutOf(sys.kv, name, c).1))])
    case Elsewhere(key, value, version) => sys.(kv := Put(sys.kv, key, value, version).0)
  }

  /** Clients with distinct ids, none of them a word the lock uses, on a store without the lock. */
  predicate Initial(sys: System, name: string) {
    && name !in sys.kv
    && (forall i :: 0 <= i < |sys.clients| ==>
          sys.clients[i].version == 0 && sys.clients[i].pc == Idle && sys.clients[i].id !in {AVAILABLE, ""})
    && forall i, j :: 0 <= i < j < |sys.clients| ==> sys.clients[i].id != sys.clients[j].id
  }

  predicate IsRun(name: string, states: seq<System>, steps: seq<Step>) {
    && |states| == |steps| + 1 && Initial(states[0], name)
    && forall k {:trigger StepAt(name, states, steps, k)} :: 0 <= k < |steps| ==> StepAt(name, states, steps, k)
  }

  predicate StepAt(name: string, states: seq<System>, steps: seq<Step>, k: nat)
    requires k < |steps| && |states| == |steps| + 1
  {
    Enabled(states[k], name, steps[k]) && states[k + 1] == Apply(states[k], name, steps[k])
  }

  // ----- the invariant -----

  /** The version is odd exactly when some client's id is stored. */
  predicate StoreOk(sys: System, name: string) {
    var g := Get(sys.kv, name);
    && (name in sys.kv <==> g.version > 0)
    && (g.version % 2 == 0 && g.version > 0 ==> g.value == AVAILABLE)
    && (g.version % 2 == 1 ==> exists i :: 0 <= i < |sys.clients| && sys.clients[i].id == g.value)
  }

  /** The stored value is this client's. */
  predicate Owns(got: Got, c: Client) {
    got.version % 2 == 1 && got.value == c.id
  }

  predicate ClientOk(got: Got, c: Client) {
    match c.pc
    case Idle => c.version % 2 == 0 || (Owns(got, c) && c.version > got.version)
    case Acquiring(_) => c.version % 2 == 0 || (Owns(got, c) && c.version > got.version)
    case Resyncing => got.version > 0
    case Holding(resynced) => Owns(got, c) && c.version == if resynced then got.version + 1 else got.version
    case Releasing(_, resynced) =>
      if resynced then Owns(got, c) && c.version == got.version + 1
      else (Owns(got, c) && c.version == got.version) || (c.version % 2 == 1 && c.version < got.version)
  }

  predicate Inv(sys: System, name: string) {
    && (forall i :: 0 <= i < |sys.clients| ==> sys.clients[i].id !in {AVAILABLE, ""})
    && (forall i, j :: 0 <= i < j < |sys.clients| ==> sys.clients[i].id != sys.clients[j].id)
    && StoreOk(sys, name)
    && forall i {:trigger ClientOk(Get(sys.kv, name), sys.clients[i])} ::
         0 <= i < |sys.clients| ==> ClientOk(Get(sys.kv, name), sys.clients[i])
  }

  /** A client's `Put` takes effect only to take a free lock or to free its own. */
  lemma PutIsFenced(sys: System, name: string, i: nat)
    requires Inv(sys, name) && i < |sys.clients| && Putting(sys.clients[i])
    ensures var c, g := sys.clients[i], Get(sys.kv, name);
            var (kv', err) := PutOf(sys.kv, name, c);
            && (err == OK ==> Get(kv', name) == Got(if c.pc.Releasing? then AVAILABLE else c.id, g.version + 1, OK)
                              && c.version == g.version && name in kv'
                              && if c.pc.Releasing? then Owns(g, c) && !c.pc.resynced else g.version % 2 == 0)
            && (err != OK ==> kv' == sys.kv)
            && (err == ErrVersion ==> g.version > 0)
  {
    var c := sys.clients[i];
    assert ClientOk(Get(sys.kv, name), c);
    PutEffect(sys.kv, name, if c.pc.Releasing? then AVAILABLE else c.id, c.version);
  }

  lemma OtherKeeps(sys: System, name: string, i: nat, j: nat)
    requires Inv(sys, name) && i < |sys.clients| && j < |sys.clients| && i != j && Putting(sys.clients[i])
    ensures ClientOk(Get(PutOf(sys.kv, name, sys.clients[i]).0, name), sys.clients[j])
  {
    PutIsFenced(sys, name, i);
    assert ClientOk(Get(sys.kv, name), sys.clients[j]);
    assert sys.clients[i].id != sys.clients[j].id;
  }

  lemma PutterKeeps(sys: System, name: string, i: nat)
    requires Inv(sys, name) && i < |sys.clients| && Putting(sys.clients[i])
    ensures var c := sys.clients[i];
            var (kv', err) := PutOf(sys.kv, name, c);
            ClientOk(Get(kv', name), Retrying(c)) && ClientOk(Get(kv', name), Answered(c, ClerkErr(c.pc, err)))
  {
    PutIsFenced(sys, name, i);
    assert ClientOk(Get(sys.kv, name), sys.clients[i]);
  }

  lemma ServedKeepsInv(sys: System, name: string, i: nat, c': Client)
    requires Inv(sys, name) && i < |sys.clients| && Putting(sys.clients[i]) && c'.id == sys.clients[i].id
    requires ClientOk(Get(PutOf(sys.kv, name, sys.clients[i]).0, name), c')
    ensures Inv(System(PutOf(sys.kv, name, sys.clients[i]).0, sys.clients[i := c']), name)
  {
    var sys' := System(PutOf(sys.kv, name, sys.clients[i]).0, sys.clients[i := c']);
    PutIsFenced(sys, name, i);
    forall j | 0 <= j < |sys'.clients| ensures ClientOk(Get(sys'.kv, name), sys'.clients[j]) {
      if j != i { OtherKeeps(sys, name, i, j); }
    }
    StoreStaysOk(sys, name, i, c');
  }

  lemma StoreStaysOk(sys: System, name: string, i: nat, c': Client)
    requires Inv(sys, name) && i < |sys.clients| && Putting(sys.clients[i]) && c'.id == sys.clients[i].id
    ensures StoreOk(System(PutOf(sys.kv, name, sys.clients[i]).0, sys.clients[i := c']), name)
  {
    var sys' := System(PutOf(sys.kv, name, sys.clients[i]).0, sys.clients[i := c']);
    PutIsFenced(sys, name, i);
    assert sys'.clients[i].id == sys.clients[i].id;
    var g := Get(sys.kv, name);
    if sys'.kv == sys.kv && g.version % 2 == 1 {
      var j :| 0 <= j < |sys.clients| && sys.clients[j].id == g.value;
      assert sys'.clients[j].id == g.value;
    }
  }

  /** Only the client changes, not the store. */
  lemma LocalKeepsInv(sys: System, name: string, i: nat, c': Client)
    requires Inv(sys, name) && i < |sys.clients| && c'.id == sys.clients[i].id && ClientOk(Get(sys.kv, name), c')
    ensures Inv(sys.(clients := sys.clients[i := c']), name)
  {
    var sys' := sys.(clients := sys.clients[i := c']);
    forall j | 0 <= j < |sys'.clients| ensures ClientOk(Get(sys'.kv, name), sys'.clients[j]) {
      if j != i { assert ClientOk(Get(sys.kv, name), sys.clients[j]); }
    }
    var g := Get(sys.kv, name);
    if g.version % 2 == 1 {
      var j :| 0 <= j < |sys.clients| && sys.clients[j].id == g.value;
      assert sys'.clients[j].id == g.value;
    }
  }

  lemma ElsewhereKeepsInv(sys: System, name: string, kv': Store)
    requires Inv(sys, name) && Get(kv', name) == Get(sys.kv, name) && (name in kv' <==> name in sys.kv)
    ensures Inv(sys.(kv := kv'), name)
  {
    forall j | 0 <= j < |sys.clients| ensures ClientOk(Get(kv', name), sys.clients[j]) {
      assert ClientOk(Get(sys.kv, name), sys.clients[j]);
    }
  }

  lemma StepKeepsInv(sys: System, name: string, step: Step)
    requires Inv(sys, name) && Enabled(sys, name, step)
    ensures Inv(Apply(sys, name, step), name)
  {
    if step.Elsewhere? {
      PutEffect(sys.kv, step.key, step.value, step.version);
      ElsewhereKeepsInv(sys, name, Put(sys.kv, step.key, step.value, step.version).0);
    } else {
      var c := sys.clients[step.i];
      assert ClientOk(Get(sys.kv, name), c);
      match step
      case Begin(i) => LocalKeepsInv(sys, name, i, Begun(c));
      case LoseRequest(i) => LocalKeepsInv(sys, name, i, Retrying(c));
      case LoseReply(i) =>
        if Putting(c) { PutterKeeps(sys, name, i); ServedKeepsInv(sys, name, i, Retrying(c)); }
      case Answer(i) =>
        if Putting(c) {
          PutterKeeps(sys, name, i);
          ServedKeepsInv(sys, name, i, Answered(c, ClerkErr(c.pc, PutOf(sys.kv, name, c).1)));
        } else {
          LocalKeepsInv(sys, name, i, Resynced(c, Get(sys.kv, name)));
        }
    }
  }

  lemma {:induction false} RunKeepsInv(name: string, states: seq<System>, steps: seq<Step>, k: nat)
    requires IsRun(name, states, steps) && k <= |steps|
    ensures Inv(states[k], name)
  {
    if k > 0 {
      RunKeepsInv(name, states, steps, k - 1);
      assert StepAt(name, states, steps, k - 1);
      StepKeepsInv(states[k - 1], name, steps[k - 1]);
    }
  }

  // ----- what the lock promises -----

  /** Mutual exclusion: two clients never hold the lock at the same time; whoever holds it is the one
      stored at an odd version; and no other client's next `Put` carries that version. */
  lemma MutualExclusion(name: string, states: seq<System>, steps: seq<Step>, k: nat, i: nat)
    requires IsRun(name, states, steps) && k <= |steps| && i < |states[k].clients|
    ensures var sys := states[k];
            var g := Get(sys.kv, name);
            sys.clients[i].pc.Holding? ==>
              && g.value == sys.clients[i].id && g.version % 2 == 1
              && forall j :: 0 <= j < |sys.clients| && j != i ==>
                   && !sys.clients[j].pc.Holding?
                   && (Putting(sys.clients[j]) ==> sys.clients[j].version != g.version)
  {
    RunKeepsInv(name, states, steps, k);
    var sys := states[k];
    if sys.clients[i].pc.Holding? {
      assert ClientOk(Get(sys.kv, name), sys.clients[i]);
      forall j | 0 <= j < |sys.clients| && j != i
        ensures !sys.clients[j].pc.Holding? && (Putting(sys.clients[j]) ==> sys.clients[j].version != Get(sys.kv, name).version)
      {
        assert ClientOk(Get(sys.kv, name), sys.clients[j]);
        assert sys.clients[i].id != sys.clients[j].id;
      }
    }
  }

  /** The server's version is odd exactly when the lock is some client's. */
  lemma OddIffOwned(name: string, states: seq<System>, steps: seq<Step>, k: nat)
    requires IsRun(name, states, steps) && k <= |steps|
    ensures var g := Get(states[k].kv, name);
            g.version % 2 == 1 <==> exists i :: 0 <= i < |states[k].clients| && states[k].clients[i].id == g.value
  {
    RunKeepsInv(name, states, steps, k);
  }

  /** `Release` frees the lock exactly when it was acquired by an `OK`: after `resync` finds the
      client's own id, the version it keeps is one ahead and the `Put` of `Release` is refused. */
  lemma ReleaseFreesIffAcquiredByOk(name: string, states: seq<System>, steps: seq<Step>, k: nat, i: nat)
    requires IsRun(name, states, steps) && k <= |steps| && i < |states[k].clients| && states[k].clients[i].pc.Holding?
    ensures var sys := states[k];
            Get(PutOf(sys.kv, name, Begun(sys.clients[i])).0, name).value == AVAILABLE <==> !sys.clients[i].pc.resynced
  {
    RunKeepsInv(name, states, steps, k);
    var sys := states[k];
    assert ClientOk(Get(sys.kv, name), sys.clients[i]);
    PutEffect(sys.kv, name, AVAILABLE, sys.clients[i].version);
  }

  /** The lock is stuck with client `i`: stored under its id, at a version the client has passed. */
  predicate Stuck(sys: System, name: string, i: nat) {
    && i < |sys.clients| && Owns(Get(sys.kv, name), sys.clients[i])
    && (sys.clients[i].version > Get(sys.kv, name).version || sys.clients[i].pc.Resyncing?)
  }

  lemma StuckStays(sys: System, name: string, step: Step, i: nat)
    requires Inv(sys, name) && Enabled(sys, name, step) && Stuck(sys, name, i)
    ensures Stuck(Apply(sys, name, step), name, i)
    ensures Get(Apply(sys, name, step).kv, name) == Get(sys.kv, name)
  {
    assert ClientOk(Get(sys.kv, name), sys.clients[i]);
    if step.Elsewhere? {
      PutEffect(sys.kv, step.key, step.value, step.version);
    } else if Putting(sys.clients[step.i]) {
      PutIsFenced(sys, name, step.i);
      if step.i != i { assert sys.clients[step.i].id != sys.clients[i].id; }
    }
  }

  /** A lock acquired through `resync` is never free again, in any continuation. */
  lemma {:induction false} ResyncedLockNeverFreed(name: string, states: seq<System>, steps: seq<Step>, k: nat,
                                                  m: nat, i: nat)
    requires IsRun(name, states, steps) && k <= m <= |steps| && i < |states[k].clients|
    requires states[k].clients[i].pc == Holding(true)
    ensures Stuck(states[m], name, i) && Get(states[m].kv, name) == Get(states[k].kv, name)
    decreases m
  {
    if k == m {
      RunKeepsInv(name, states, steps, k);
      assert ClientOk(Get(states[k].kv, name), states[k].clients[i]);
    } else {
      ResyncedLockNeverFreed(name, states, steps, k, m - 1, i);
      RunKeepsInv(name, states, steps, m - 1);
      assert StepAt(name, states, steps, m - 1);
      StuckStays(states[m - 1], name, steps[m - 1], i);
    }
  }

  /** One lost reply is enough: a single client that acquires a free lock ends up holding it through
      `resync`, and then nobody ever frees it. */
  lemma LostReplySticks(name: string, id: string) returns (states: seq<System>, steps: seq<Step>)
    requires id !in {AVAILABLE, ""}
    ensures IsRun(name, states, steps) && |steps| == 4 && |states[4].clients| == 1
    ensures states[0].kv == map[] && states[4].clients[0].pc == Holding(true)
  {
    var s0 := System(map[], [Client(id, 0, Idle)]);
    var s1 := Apply(s0, name, Begin(0));
    var s2 := Apply(s1, name, LoseReply(0));
    var s3 := Apply(s2, name, Answer(0));
    var s4 := Apply(s3, name, Answer(0));
    states, steps := [s0, s1, s2, s3, s4], [Begin(0), LoseReply(0), Answer(0), Answer(0)];
    assert StepAt(name, states, steps, 0) && StepAt(name, states, steps, 1);
    assert StepAt(name, states, steps, 2) && StepAt(name, states, steps, 3);
  }

  // ----- the lock can always be had when it is free -----

  /** As long as nobody has had the lock, everybody asks for version 0. */
  predicate Untouched(sys: System, name: string) {
    name !in sys.kv ==>
      forall i :: 0 <= i < |sys.clients| ==> sys.clients[i].version == 0 && (sys.clients[i].pc.Idle? || sys.clients[i].pc.Acquiring?)
  }

  lemma {:induction false} RunUntouched(name: string, states: seq<System>, steps: seq<Step>, k: nat)
    requires IsRun(name, states, steps) && k <= |steps|
    ensures Untouched(states[k], name)
  {
    if k > 0 {
      RunUntouched(name, states, steps, k - 1);
      assert StepAt(name, states, steps, k - 1);
      var sys, step := states[k - 1], steps[k - 1];
      if step.Elsewhere? { PutEffect(sys.kv, step.key, step.value, step.version); }
    }
  }

  /** The version `resync` leaves is the one to put at: now, if the lock is free; as soon as its owner has freed it,
      if it is another's; but for a lock of the client's own it is one too high to free it. */
  lemma ResyncOutcome(name: string, kv: Store, c: Client)
    requires name in kv && c.id != AVAILABLE
    ensures var got := Get(kv, name);
            var c' := Resynced(c, got);
            && (c'.pc == Holding(true) <==> got.value == c.id) && (c'.pc != Holding(true) ==> c'.pc == Acquiring(true))
            && (got.value == AVAILABLE ==> Put(kv, name, c.id, c'.version).1 == OK)
            && (got.value != AVAILABLE && got.value != c.id ==>
                  Put(Put(kv, name, AVAILABLE, got.version).0, name, c.id, c'.version).1 == OK)
            && (got.value == c.id ==> Put(kv, name, AVAILABLE, c'.version).1 == ErrVersion)
  {
    PutEffect(kv, name, AVAILABLE, Get(kv, name).version);
  }

  lemma OneMore(name: string, states: seq<System>, steps: seq<Step>, step: Step) returns (states': seq<System>, steps': seq<Step>)
    requires IsRun(name, states, steps) && Enabled(states[|steps|], name, step)
    ensures IsRun(name, states', steps') && states <= states' && steps' == steps + [step] && |states'| == |steps'| + 1
    ensures states'[|steps'|] == Apply(states[|steps|], name, step)
  {
    states', steps' := states + [Apply(states[|steps|], name, step)], steps + [step];
    forall k | 0 <= k < |steps'| ensures StepAt(name, states', steps', k) {
      if k < |steps| { assert StepAt(name, states, steps, k); }
    }
  }

  /** A free lock goes to whoever asks: its first `Put` is refused only for the version, and `resync` finds that. */
  lemma FreeLockAcquired(name: string, states: seq<System>, steps: seq<Step>, i: nat)
    returns (states': seq<System>, steps': seq<Step>)
    requires IsRun(name, states, steps) && i < |states[|steps|].clients| && states[|steps|].clients[i].pc.Idle?
    requires Get(states[|steps|].kv, name).version % 2 == 0
    ensures IsRun(name, states', steps') && states <= states' && steps <= steps'
    ensures var sys := states'[|steps'|]; i < |sys.clients| && sys.clients[i].pc == Holding(false)
  {
    RunKeepsInv(name, states, steps, |steps|);
    RunUntouched(name, states, steps, |steps|);
    var sys := states[|steps|];
    var c, g := sys.clients[i], Get(sys.kv, name);
    PutEffect(sys.kv, name, c.id, c.version);
    states', steps' := OneMore(name, states, steps, Begin(i));
    states', steps' := OneMore(name, states', steps', Answer(i));
    if c.version != g.version {
      assert states'[|steps'|].kv == sys.kv;
      states', steps' := OneMore(name, states', steps', Answer(i));
      PutEffect(sys.kv, name, c.id, g.version);
      states', steps' := OneMore(name, states', steps', Answer(i));
    }
  }

  /** From every reachable state in which the lock is free, or held by a client that acquired it by an `OK`, it
      can pass to any idle client, which then holds it by an `OK`. */
  lemma LockCanPass(name: string, states: seq<System>, steps: seq<Step>, i: nat)
    returns (states': seq<System>, steps': seq<Step>)
    requires IsRun(name, states, steps) && i < |states[|steps|].clients| && states[|steps|].clients[i].pc.Idle?
    requires var sys := states[|steps|];
             || Get(sys.kv, name).version % 2 == 0
             || exists j :: 0 <= j < |sys.clients| && sys.clients[j].pc == Holding(false)
    ensures IsRun(name, states', steps') && states <= states' && steps <= steps'
    ensures var sys := states'[|steps'|]; i < |sys.clients| && sys.clients[i].pc == Holding(false)
  {
    var sys := states[|steps|];
    states', steps' := states, steps;
    if Get(sys.kv, name).version % 2 != 0 {
      var j :| 0 <= j < |sys.clients| && sys.clients[j].pc == Holding(false);
      states', steps' := LockReleased(name, states, steps, j);
    }
    states', steps' := FreeLockAcquired(name, states', steps', i);
  }

  lemma LockReleased(name: string, states: seq<System>, steps: seq<Step>, j: nat)
    returns (states': seq<System>, steps': seq<Step>)
    requires IsRun(name, states, steps) && j < |states[|steps|].clients| && states[|steps|].clients[j].pc == Holding(false)
    ensures IsRun(name, states', steps') && states <= states' && steps <= steps'
    ensures var sys, sys' := states[|steps|], states'[|steps'|];
            && Get(sys'.kv, name).version % 2 == 0 && |sys'.clients| == |sys.clients|
            && forall i :: 0 <= i < |sys.clients| && i != j ==> sys'.clients[i] == sys.clients[i]
  {
    RunKeepsInv(name, states, steps, |steps|);
    var sys := states[|steps|];
    assert ClientOk(Get(sys.kv, name), sys.clients[j]);
    PutEffect(sys.kv, name, AVAILABLE, sys.clients[j].version);
    states', steps' := OneMore(name, states, steps, Begin(j));
    states', steps' := OneMore(name, states', steps', Answer(j));
  }

  // ----- the lock object -----

  /** `Acquire` given, for each turn of its loop, what its `Put` and its `Get` return. */
  function Acquired(c: Client, turns: seq<(Err, Got)>): Client
    decreases |turns|
  {
    if turns == [] then c
    else
      var c1 := Answered(c, turns[0].0);
      var c2 := if c1.pc.Resyncing? then Resynced(c1, turns[0].1) else c1;
      if c2.pc.Holding? then c2 else Acquired(c2, turns[1..])
  }

  class Lock {
    const id: string
    var version: nat

    ghost function At(pc: Pc): Client
      reads this
    {
      Client(id, version, pc)
    }

    constructor (id: string)
      ensures At(Idle) == Client(id, 0, Idle)
    {
      this.id, version := id, 0;
    }

    method Resync(got: Got) returns (mine: bool)
      modifies this
      ensures At(if mine then Holding(true) else Acquiring(true)) == Resynced(old(At(Resyncing)), got)
    {
      mine := false;
      if got.value == id {
        version := got.version + 1;
        mine := true;
      } else if got.value == AVAILABLE {
        version := got.version;
      } else {
        version := got.version + 1;
      }
    }

    /** The loop of `Acquire`; it ends when the lock is acquired, or when the turns given run out. */
    method Acquire(turns: seq<(Err, Got)>) returns (pc: Pc)
      modifies this
      ensures At(pc) == Acquired(old(At(Acquiring(true))), turns)
    {
      pc := Acquiring(true);
      var i := 0;
      while i < |turns|
        invariant 0 <= i <= |turns| && pc == Acquiring(true)
        invariant Acquired(At(pc), turns[i..]) == Acquired(old(At(Acquiring(true))), turns)
      {
        assert turns[i..][1..] == turns[i + 1..];
        match turns[i].0 {
          case OK =>
            version := version + 1;
            return Holding(false);
          case ErrVersion | ErrMaybe =>
            var mine := Resync(turns[i].1);
            if mine { return Holding(true); }
          case _ =>
        }
        i := i + 1;
      }
    }

    /** `Release` puts the free mark at the version it keeps, ignores the answer, and moves on: however its
        calls fare, the lock is free afterwards exactly if that version was the stored one, or it was free. */
    method Release(server: KVServer, name: string, fates: seq<Clerk.Fate>)
      requires Clerk.Calls(fates)
      modifies this, server
      ensures forall e, r :: At(Idle) == Answered(old(At(Releasing(true, r))), e)
      ensures server.keyValue == Put(old(server.keyValue), name, AVAILABLE, old(version)).0
      ensures name in old(server.keyValue) ==>
                (Get(server.keyValue, name).value == AVAILABLE <==>
                 old(version) == Get(old(server.keyValue), name).version || Get(old(server.keyValue), name).value == AVAILABLE)
    {
      Clerk.PutAloneEffect(server.keyValue, name, AVAILABLE, version, fates, true);
      var _ := Clerk.ClerkPut(server, name, AVAILABLE, version, fates);
      version := version + 1;
    }
  }
}
