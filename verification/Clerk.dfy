/** Any number of clerks of `src/kvsrv1/client.go` using one server over a network that loses
    requests and replies, and that may still deliver a request after its call has failed: when their
    histories are linearizable. */
module Clerk {
  import opened KeyValue

  /** An operation is pending until a reply reaches its clerk; `at` is the server's execution that
      was answered. */
  datatype Status = Pending | Done(out: Output, at: nat, time: nat)

  /** `seen` is how many executions the server had made when the operation was invoked. */
  datatype Op = Op(firstTry: bool, invoked: nat, seen: nat, status: Status)

  /** `inputs[o]` and `ops[o]` are the `o`-th operation; `events` lists the server's executions by
      operation, and `times` when they took place. */
  datatype System = System(inputs: seq<Input>, ops: seq<Op>, kv: Store, events: seq<nat>, times: seq<nat>, now: nat)

  datatype Step =
    | Invoke(input: Input)
    | LoseRequest(o: nat)   // Call fails before the server sees the request
    | LoseReply(o: nat)     // Call fails after the server has executed the request
    | Answer(o: nat)        // Call succeeds
    | Late(o: nat)          // a call that failed earlier is executed after all

  function Start(): System {
    System([], [], map[], [], [], 0)
  }

  predicate Enabled(sys: System, step: Step) {
    && |sys.inputs| == |sys.ops|
    && match step
       case Invoke(_) => true
       case Late(o) => o < |sys.ops| && !sys.ops[o].firstTry
       case _ => step.o < |sys.ops| && sys.ops[step.o].status.Pending?
  }

  /** What `Clerk.Put` and `Clerk.Get` return once a call succeeds. */
  function Returned(op: Op, input: Input, out: Output): Output {
    if input.Write? && !op.firstTry && out.err == ErrVersion then out.(err := ErrMaybe) else out
  }

  /** The server executes the operation. */
  function Run(sys: System, o: nat): System
    requires o < |sys.inputs|
  {
    sys.(kv := Execute(sys.kv, sys.inputs[o]).0, events := sys.events + [o], times := sys.times + [sys.now], now := sys.now + 1)
  }

  function Apply(sys: System, step: Step): System
    requires Enabled(sys, step)
  {
    match step
    case Invoke(input) =>
      sys.(inputs := sys.inputs + [input], ops := sys.ops + [Op(true, sys.now, |sys.events|, Pending)], now := sys.now + 1)
    case LoseRequest(o) => sys.(ops := sys.ops[o := sys.ops[o].(firstTry := false)], now := sys.now + 1)
    case LoseReply(o) => Run(sys, o).(ops := sys.ops[o := sys.ops[o].(firstTry := false)])
    case Answer(o) =>
      var out := Returned(sys.ops[o], sys.inputs[o], Execute(sys.kv, sys.inputs[o]).1);
      Run(sys, o).(ops := sys.ops[o := sys.ops[o].(status := Done(out, |sys.events|, sys.now))])
    case Late(o) => Run(sys, o)
  }

  predicate IsRun(states: seq<System>, steps: seq<Step>) {
    && |states| == |steps| + 1 && states[0] == Start()
    && forall k :: 0 <= k < |steps| ==> Enabled(states[k], steps[k]) && states[k + 1] == Apply(states[k], steps[k])
  }

  // ----- the server's executions -----

  predicate Listed(inputs: seq<Input>, events: seq<nat>) {
    forall i :: 0 <= i < |events| ==> events[i] < |inputs|
  }

  /** The store before execution `i`. */
  function StoreAt(inputs: seq<Input>, events: seq<nat>, i: nat): Store
    requires Listed(inputs, events) && i <= |events|
  {
    if i == 0 then map[] else Execute(StoreAt(inputs, events, i - 1), inputs[events[i - 1]]).0
  }

  /** What the server answered in execution `i`. */
  function OutAt(inputs: seq<Input>, events: seq<nat>, i: nat): Output
    requires Listed(inputs, events) && i < |events|
  {
    Execute(StoreAt(inputs, events, i), inputs[events[i]]).1
  }

  /** Execution `i` changed the store. */
  predicate AppliedAt(inputs: seq<Input>, events: seq<nat>, i: nat)
    requires Listed(inputs, events) && i < |events|
  {
    inputs[events[i]].Write? && OutAt(inputs, events, i).err == OK
  }

  lemma {:induction false} StoreStable(inputs: seq<Input>, events: seq<nat>, inputs': seq<Input>, events': seq<nat>, i: nat)
    requires inputs <= inputs' && events <= events' && Listed(inputs, events) && Listed(inputs', events') && i <= |events|
    ensures StoreAt(inputs', events', i) == StoreAt(inputs, events, i)
    ensures i < |events| ==> OutAt(inputs', events', i) == OutAt(inputs, events, i)
  {
    if i > 0 { StoreStable(inputs, events, inputs', events', i - 1); }
  }

  /** Versions never fall and keys never disappear. */
  lemma {:induction false} VersionsGrow(inputs: seq<Input>, events: seq<nat>, i: nat, j: nat, key: string)
    requires Listed(inputs, events) && i <= j <= |events|
    ensures var a, b := StoreAt(inputs, events, i), StoreAt(inputs, events, j);
            a.Keys <= b.Keys && Get(a, key).version <= Get(b, key).version
    decreases j
  {
    if i < j {
      VersionsGrow(inputs, events, i, j - 1, key);
      var inp := inputs[events[j - 1]];
      if inp.Write? { PutEffect(StoreAt(inputs, events, j - 1), inp.key, inp.value, inp.version); }
    }
  }

  /** Once a `Put` has been applied, every later execution of it is refused with `ErrVersion`. */
  lemma AppliedOnlyOnce(inputs: seq<Input>, events: seq<nat>, i: nat, j: nat)
    requires Listed(inputs, events) && i < j < |events| && events[i] == events[j] && AppliedAt(inputs, events, i)
    ensures OutAt(inputs, events, j).err == ErrVersion && !AppliedAt(inputs, events, j)
  {
    var inp := inputs[events[i]];
    PutEffect(StoreAt(inputs, events, i), inp.key, inp.value, inp.version);
    VersionsGrow(inputs, events, i + 1, j, inp.key);
  }

  predicate Creates(inp: Input, key: string) {
    inp.Write? && inp.key == key && inp.version == 0
  }

  /** A key exists exactly when some execution so far was a `Put` of it at version 0. */
  lemma {:induction false} KeyInStoreIff(inputs: seq<Input>, events: seq<nat>, i: nat, key: string)
    requires Listed(inputs, events) && i <= |events|
    ensures key in StoreAt(inputs, events, i) <==> exists j :: 0 <= j < i && Creates(inputs[events[j]], key)
  {
    if i > 0 {
      KeyInStoreIff(inputs, events, i - 1, key);
      assert Creates(inputs[events[i - 1]], key) ==> key in StoreAt(inputs, events, i);
    }
  }

  // ----- the invariant -----

  /** One operation and its executions. */
  predicate OpOk(sys: System, o: nat)
    requires o < |sys.ops| == |sys.inputs| && Listed(sys.inputs, sys.events) && |sys.times| == |sys.events|
  {
    var op := sys.ops[o];
    && op.invoked < sys.now && op.seen <= |sys.events|
    && (forall i :: 0 <= i < |sys.events| && sys.events[i] == o ==> op.invoked < sys.times[i] && op.seen <= i)
    && match op.status
       case Pending => op.firstTry ==> o !in sys.events
       case Done(out, at, time) =>
         && at < |sys.events| && sys.events[at] == o && sys.times[at] == time
         && out == Returned(op, sys.inputs[o], OutAt(sys.inputs, sys.events, at))
         && forall i :: 0 <= i < |sys.events| && sys.events[i] == o && i != at ==> !op.firstTry
  }

  predicate Inv(sys: System) {
    && |sys.ops| == |sys.inputs| && |sys.times| == |sys.events| && Listed(sys.inputs, sys.events)
    && sys.kv == StoreAt(sys.inputs, sys.events, |sys.events|)
    && (forall i :: 0 <= i < |sys.times| ==> sys.times[i] < sys.now)
    && (forall i, j :: 0 <= i < j < |sys.times| ==> sys.times[i] < sys.times[j])
    && forall o {:trigger OpOk(sys, o)} :: 0 <= o < |sys.ops| ==> OpOk(sys, o)
  }

  lemma StepKeepsInv(sys: System, step: Step)
    requires Inv(sys) && Enabled(sys, step)
    ensures Inv(Apply(sys, step))
  {
    var sys' := Apply(sys, step);
    StoreStable(sys.inputs, sys.events, sys'.inputs, sys'.events, |sys.events|);
    forall o | 0 <= o < |sys'.ops| ensures OpOk(sys', o) {
      if o < |sys.ops| { OpStaysOk(sys, step, o); }
    }
  }

  lemma OpStaysOk(sys: System, step: Step, o: nat)
    requires Inv(sys) && Enabled(sys, step) && o < |sys.ops| && Listed(Apply(sys, step).inputs, Apply(sys, step).events)
    ensures OpOk(Apply(sys, step), o)
  {
    var sys' := Apply(sys, step);
    assert OpOk(sys, o);
    if sys.ops[o].status.Done? {
      StoreStable(sys.inputs, sys.events, sys'.inputs, sys'.events, sys.ops[o].status.at);
    } else if step == Answer(o) {
      StoreStable(sys.inputs, sys.events, sys'.inputs, sys'.events, |sys.events|);
    }
  }

  lemma {:induction false} RunKeepsInv(states: seq<System>, steps: seq<Step>, k: nat)
    requires IsRun(states, steps) && k <= |steps|
    ensures Inv(states[k])
  {
    if k > 0 {
      RunKeepsInv(states, steps, k - 1);
      StepKeepsInv(states[k - 1], steps[k - 1]);
    }
  }

  // ----- what a history has to be -----

  /** What the clerk returned; an operation still pending may yet return `OK`. */
  function OutputOf(op: Op): Output {
    if op.status.Done? then op.status.out else Output("", 0, OK)
  }

  predicate Ordering(sys: System, order: seq<nat>) {
    |sys.ops| == |sys.inputs| && forall p :: 0 <= p < |order| ==> order[p] < |sys.ops|
  }

  /** The specification of one key run over operations in the given order, with what their clerks returned. */
  function Spec(sys: System, order: seq<nat>, key: string): (bool, KvState)
    requires Ordering(sys, order)
  {
    if order == [] then (true, Init())
    else
      var last := |order| - 1;
      var (ok, st) := Spec(sys, order[..last], key);
      var o := order[last];
      if sys.inputs[o].key == key then
        var (allowed, st') := KeyValue.Step(st, sys.inputs[o], OutputOf(sys.ops[o]));
        (ok && allowed, st')
      else (ok, st)
  }

  /** Operation `a` returned before `b` was invoked. */
  predicate Precedes(sys: System, a: nat, b: nat)
    requires a < |sys.ops| && b < |sys.ops|
  {
    sys.ops[a].status.Done? && sys.ops[a].status.time <= sys.ops[b].invoked
  }

  /** The order holds every completed operation once and some of the pending ones, keeps what came
      before in real time before, and is a run of the specification for every key. */
  ghost predicate Linearizes(sys: System, order: seq<nat>) {
    && Ordering(sys, order)
    && (forall p, q :: 0 <= p < q < |order| ==> order[p] != order[q] && !Precedes(sys, order[q], order[p]))
    && (forall o :: 0 <= o < |sys.ops| && sys.ops[o].status.Done? ==> o in order)
    && forall key :: Spec(sys, order, key).0
  }

  ghost predicate Linearizable(sys: System) {
    exists order :: Linearizes(sys, order)
  }

  // ----- puts that cannot be met -----

  /** A completed `Put` that returned `ErrNoKey`. */
  predicate SaidNoKey(sys: System, o: nat)
    requires o < |sys.ops| == |sys.inputs|
  {
    sys.inputs[o].Write? && sys.ops[o].status.Done? && sys.ops[o].status.out.err == ErrNoKey
  }

  /** A completed `Put` at a version other than 0, answered before any `Put` at version 0 of its key. */
  predicate Premature(sys: System, o: nat)
    requires o < |sys.ops| == |sys.inputs| && Listed(sys.inputs, sys.events)
  {
    && sys.inputs[o].Write? && sys.ops[o].status.Done? && sys.inputs[o].version != 0
    && forall j :: 0 <= j < sys.ops[o].status.at && j < |sys.events| ==> !Creates(sys.inputs[sys.events[j]], sys.inputs[o].key)
  }

  lemma SaidNoKeyIff(sys: System, o: nat)
    requires Inv(sys) && o < |sys.ops|
    ensures SaidNoKey(sys, o) <==> Premature(sys, o)
  {
    assert OpOk(sys, o);
    if sys.ops[o].status.Done? {
      var at := sys.ops[o].status.at;
      KeyInStoreIff(sys.inputs, sys.events, at, sys.inputs[o].key);
      ServerRefinesModel(StoreAt(sys.inputs, sys.events, at), sys.inputs[o]);
    }
  }

  /** No order at all is accepted with a `Put` that returned `ErrNoKey` in it. */
  lemma {:induction false} NoOrderAccepted(sys: System, order: seq<nat>, o: nat)
    requires Ordering(sys, order) && o in order && SaidNoKey(sys, o)
    ensures !Spec(sys, order, sys.inputs[o].key).0
    decreases |order|
  {
    var last := |order| - 1;
    if order[last] != o {
      assert order == order[..last] + [order[last]];
      NoOrderAccepted(sys, order[..last], o);
    }
  }

  // ----- the linearization -----

  /** The operation was applied by some execution. */
  predicate Applied(sys: System, o: nat)
    requires Listed(sys.inputs, sys.events)
  {
    exists i :: 0 <= i < |sys.events| && sys.events[i] == o && AppliedAt(sys.inputs, sys.events, i)
  }

  /** No operation was applied after its clerk had returned. */
  predicate Settled(sys: System)
    requires Listed(sys.inputs, sys.events) && |sys.ops| == |sys.inputs|
  {
    forall i :: 0 <= i < |sys.events| && AppliedAt(sys.inputs, sys.events, i) && sys.ops[sys.events[i]].status.Done? ==>
      i <= sys.ops[sys.events[i]].status.at
  }

  /** The execution that stands for its operation: the one that applied it, or else the answered one. */
  predicate Chosen(sys: System, i: nat)
    requires Listed(sys.inputs, sys.events) && |sys.ops| == |sys.inputs| && i < |sys.events|
  {
    var o := sys.events[i];
    AppliedAt(sys.inputs, sys.events, i)
    || (sys.ops[o].status.Done? && sys.ops[o].status.at == i && !Applied(sys, o))
  }

  /** What the clerk of an applied operation returned is what the specification allows. */
  lemma AppliedOutput(sys: System, i: nat)
    requires Inv(sys) && Settled(sys) && i < |sys.events| && AppliedAt(sys.inputs, sys.events, i)
    ensures OutputOf(sys.ops[sys.events[i]]).err in {OK, ErrMaybe}
  {
    var o := sys.events[i];
    assert OpOk(sys, o);
    if sys.ops[o].status.Done? {
      var at := sys.ops[o].status.at;
      if i < at { AppliedOnlyOnce(sys.inputs, sys.events, i, at); }
    }
  }

  /** One execution: chosen, it is a step the specification allows with the output its clerk returned;
      not chosen, it changes nothing. */
  lemma EventIsStep(sys: System, i: nat)
    requires Inv(sys) && Settled(sys) && i < |sys.events| && !SaidNoKey(sys, sys.events[i])
    ensures var o, kv, kv' := sys.events[i], StoreAt(sys.inputs, sys.events, i), StoreAt(sys.inputs, sys.events, i + 1);
            if Chosen(sys, i) then
              && KeyValue.Step(StateOf(kv, sys.inputs[o].key), sys.inputs[o], OutputOf(sys.ops[o]))
                 == (true, StateOf(kv', sys.inputs[o].key))
              && forall key :: key != sys.inputs[o].key ==> StateOf(kv', key) == StateOf(kv, key)
            else kv' == kv
  {
    var o, kv := sys.events[i], StoreAt(sys.inputs, sys.events, i);
    assert OpOk(sys, o);
    ServerRefinesModel(kv, sys.inputs[o]);
    if AppliedAt(sys.inputs, sys.events, i) { AppliedOutput(sys, i); }
  }

  /** The operations of the chosen executions among the first `i`, in order. */
  function ChosenOps(sys: System, i: nat): (order: seq<nat>)
    requires Listed(sys.inputs, sys.events) && |sys.ops| == |sys.inputs| && i <= |sys.events|
    ensures Ordering(sys, order)
  {
    if i == 0 then [] else ChosenOps(sys, i - 1) + (if Chosen(sys, i - 1) then [sys.events[i - 1]] else [])
  }

  lemma {:induction false} SpecIsStore(sys: System, key: string, i: nat)
    requires Inv(sys) && Settled(sys) && i <= |sys.events|
    requires forall o :: 0 <= o < |sys.ops| ==> !SaidNoKey(sys, o)
    ensures Spec(sys, ChosenOps(sys, i), key) == (true, StateOf(StoreAt(sys.inputs, sys.events, i), key))
  {
    if i > 0 {
      SpecIsStore(sys, key, i - 1);
      EventIsStep(sys, i - 1);
      var before, o := ChosenOps(sys, i - 1), sys.events[i - 1];
      var st, st' := StateOf(StoreAt(sys.inputs, sys.events, i - 1), key), StateOf(StoreAt(sys.inputs, sys.events, i), key);
      if Chosen(sys, i - 1) {
        SpecOneMore(sys, before, o, key, st, st');
      } else {
        assert ChosenOps(sys, i) == before;
      }
    }
  }

  lemma SpecOneMore(sys: System, before: seq<nat>, o: nat, key: string, st: KvState, st': KvState)
    requires Ordering(sys, before) && o < |sys.ops| && Spec(sys, before, key) == (true, st)
    requires if sys.inputs[o].key == key then KeyValue.Step(st, sys.inputs[o], OutputOf(sys.ops[o])) == (true, st') else st' == st
    ensures Ordering(sys, before + [o]) && Spec(sys, before + [o], key) == (true, st')
  {
    var order := before + [o];
    assert order[..|order| - 1] == before;
  }

  /** Every completed operation has exactly one execution chosen for it, inside its interval. */
  lemma ChosenOncePerOp(sys: System, o: nat) returns (i: nat)
    requires Inv(sys) && Settled(sys) && o < |sys.ops| && sys.ops[o].status.Done?
    ensures i < |sys.events| && sys.events[i] == o && Chosen(sys, i)
    ensures sys.ops[o].invoked < sys.times[i] <= sys.ops[o].status.time
    ensures forall j :: 0 <= j < |sys.events| && sys.events[j] == o && Chosen(sys, j) ==> j == i
  {
    assert OpOk(sys, o);
    var at := sys.ops[o].status.at;
    i := at;
    if Applied(sys, o) {
      i :| 0 <= i < |sys.events| && sys.events[i] == o && AppliedAt(sys.inputs, sys.events, i);
    }
    forall j | 0 <= j < |sys.events| && sys.events[j] == o && Chosen(sys, j) ensures j == i { ChosenOnce(sys, i, j); }
  }

  lemma ChosenOnce(sys: System, i: nat, j: nat)
    requires Inv(sys) && i < |sys.events| && j < |sys.events| && sys.events[i] == sys.events[j]
    requires Chosen(sys, i) && Chosen(sys, j)
    ensures i == j
  {
    if AppliedAt(sys.inputs, sys.events, j) && j < i { AppliedOnlyOnce(sys.inputs, sys.events, j, i); }
    if AppliedAt(sys.inputs, sys.events, i) && i < j { AppliedOnlyOnce(sys.inputs, sys.events, i, j); }
  }

  /** Real-time order: an operation that returned before another was invoked comes first. */
  lemma RespectsRealTime(sys: System, i: nat, j: nat)
    requires Inv(sys) && Settled(sys) && i < |sys.events| && j < |sys.events| && Chosen(sys, i) && Chosen(sys, j)
    requires Precedes(sys, sys.events[i], sys.events[j])
    ensures i < j
  {
    var a, b := sys.events[i], sys.events[j];
    var i' := ChosenOncePerOp(sys, a);
    assert OpOk(sys, b);
    assert sys.times[i] < sys.times[j];
  }

  /** Each place in the order comes from a chosen execution, and later places from later ones. */
  lemma {:induction false} ChosenFrom(sys: System, i: nat, p: nat) returns (e: nat)
    requires Inv(sys) && i <= |sys.events| && p < |ChosenOps(sys, i)|
    ensures e < i && Chosen(sys, e) && ChosenOps(sys, i)[p] == sys.events[e] && p == |ChosenOps(sys, e)|
  {
    if p < |ChosenOps(sys, i - 1)| { e := ChosenFrom(sys, i - 1, p); } else { e := i - 1; }
  }

  lemma {:induction false} ChosenGrows(sys: System, i: nat, j: nat)
    requires Inv(sys) && i <= j <= |sys.events|
    ensures |ChosenOps(sys, i)| <= |ChosenOps(sys, j)|
    ensures i < j && Chosen(sys, i) ==> |ChosenOps(sys, i)| < |ChosenOps(sys, j)| && ChosenOps(sys, j)[|ChosenOps(sys, i)|] == sys.events[i]
    decreases j
  {
    if i < j { ChosenGrows(sys, i, j - 1); }
  }

  /** The chosen executions give an order that keeps real time and holds every completed operation. */
  lemma ChosenOrder(sys: System)
    requires Inv(sys) && Settled(sys)
    ensures var order := ChosenOps(sys, |sys.events|);
            && (forall p, q :: 0 <= p < q < |order| ==> order[p] != order[q] && !Precedes(sys, order[q], order[p]))
            && (forall o :: 0 <= o < |sys.ops| && sys.ops[o].status.Done? ==> o in order)
  {
    var n := |sys.events|;
    var order := ChosenOps(sys, n);
    forall p, q | 0 <= p < q < |order| ensures order[p] != order[q] && !Precedes(sys, order[q], order[p]) {
      var e := ChosenFrom(sys, n, p);
      var f := ChosenFrom(sys, n, q);
      if f <= e { ChosenGrows(sys, f, e); }
      if order[p] == order[q] { ChosenOnce(sys, e, f); }
      if Precedes(sys, order[q], order[p]) { RespectsRealTime(sys, f, e); }
    }
    forall o | 0 <= o < |sys.ops| && sys.ops[o].status.Done? ensures o in order {
      var e := ChosenOncePerOp(sys, o);
      ChosenGrows(sys, e, n);
    }
  }

  /** No completed `Put` asked for a version of a key before the key was made. */
  predicate Timely(sys: System)
    requires |sys.ops| == |sys.inputs| && Listed(sys.inputs, sys.events)
  {
    forall o :: 0 <= o < |sys.ops| ==> !Premature(sys, o)
  }

  /** Linearizability: in every run, a history with a premature `Put` is linearizable in no way; and one
      without, in which nothing was applied after its clerk had returned, is, in an order that ends in the
      server's state. */
  lemma HistoriesLinearizable(states: seq<System>, steps: seq<Step>, k: nat)
    requires IsRun(states, steps) && k <= |steps|
    ensures Inv(states[k])
    ensures Linearizable(states[k]) ==> Timely(states[k])
    ensures Settled(states[k]) ==> (Linearizable(states[k]) <==> Timely(states[k]))
    ensures var sys := states[k];
            Settled(sys) && Timely(sys) ==>
              && Linearizes(sys, ChosenOps(sys, |sys.events|))
              && forall key :: Spec(sys, ChosenOps(sys, |sys.events|), key).1 == StateOf(sys.kv, key)
  {
    RunKeepsInv(states, steps, k);
    var sys := states[k];
    if !Timely(sys) {
      var o :| 0 <= o < |sys.ops| && Premature(sys, o);
      SaidNoKeyIff(sys, o);
      forall order ensures !Linearizes(sys, order) {
        if Ordering(sys, order) && o in order { NoOrderAccepted(sys, order, o); }
      }
    } else if Settled(sys) {
      forall o | 0 <= o < |sys.ops| ensures !SaidNoKey(sys, o) { SaidNoKeyIff(sys, o); }
      ChosenOrder(sys);
      forall key ensures Spec(sys, ChosenOps(sys, |sys.events|), key) == (true, StateOf(sys.kv, key)) {
        SpecIsStore(sys, key, |sys.events|);
      }
      assert Linearizes(sys, ChosenOps(sys, |sys.events|));
    }
  }

  /** A premature `Put`: the run in which the only clerk asks for version 1 of a key that does not exist. */
  lemma PrematurePut(key: string, value: string) returns (states: seq<System>, steps: seq<Step>)
    ensures IsRun(states, steps) && |steps| == 2 && Inv(states[2]) && |states[2].ops| == 1
    ensures SaidNoKey(states[2], 0) && !Linearizable(states[2])
  {
    steps := [Invoke(Write(key, value, 1)), Answer(0)];
    var s1 := Apply(Start(), steps[0]);
    var s2 := Apply(s1, steps[1]);
    states := [Start(), s1, s2];
    HistoriesLinearizable(states, steps, 2);
    SaidNoKeyIff(s2, 0);
  }

  // ----- requests executed after their call has failed -----

  /** Every `Put` asks for a version the server had reached when it was invoked: one some `Get` returned, or 0. */
  predicate VersionsReached(sys: System)
    requires |sys.ops| == |sys.inputs| && Listed(sys.inputs, sys.events)
  {
    forall o :: 0 <= o < |sys.ops| && sys.inputs[o].Write? ==> Reached(sys, o)
  }

  predicate Reached(sys: System, o: nat)
    requires o < |sys.ops| == |sys.inputs| && Listed(sys.inputs, sys.events) && sys.inputs[o].Write?
  {
    && sys.ops[o].seen <= |sys.events|
    && sys.inputs[o].version <= Get(StoreAt(sys.inputs, sys.events, sys.ops[o].seen), sys.inputs[o].key).version
  }

  /** An execution of such a `Put` leaves the key at a higher version than it asked for, so a later one does nothing. */
  lemma ReachedOnce(sys: System, o: nat, i: nat, j: nat)
    requires Inv(sys) && o < |sys.ops| && sys.inputs[o].Write? && Reached(sys, o)
    requires i < j < |sys.events| && sys.events[i] == sys.events[j] == o
    ensures !AppliedAt(sys.inputs, sys.events, j) && OutAt(sys.inputs, sys.events, i).err != ErrNoKey
  {
    var inp, seen := sys.inputs[o], sys.ops[o].seen;
    assert OpOk(sys, o);
    VersionsGrow(sys.inputs, sys.events, seen, i, inp.key);
    PutEffect(StoreAt(sys.inputs, sys.events, i), inp.key, inp.value, inp.version);
    VersionsGrow(sys.inputs, sys.events, i + 1, j, inp.key);
    PutEffect(StoreAt(sys.inputs, sys.events, j), inp.key, inp.value, inp.version);
  }

  lemma ReachedNotPremature(sys: System, o: nat)
    requires Inv(sys) && o < |sys.ops| && sys.inputs[o].Write? && Reached(sys, o)
    ensures !SaidNoKey(sys, o)
  {
    assert OpOk(sys, o);
    if sys.ops[o].status.Done? {
      VersionsGrow(sys.inputs, sys.events, sys.ops[o].seen, sys.ops[o].status.at, sys.inputs[o].key);
    }
  }

  /** With versions the server had reached, every history is linearizable, however late requests execute. */
  lemma ReachedHistoriesLinearizable(states: seq<System>, steps: seq<Step>, k: nat)
    requires IsRun(states, steps) && k <= |steps|
    requires |states[k].ops| == |states[k].inputs| && Listed(states[k].inputs, states[k].events) && VersionsReached(states[k])
    ensures Linearizable(states[k])
  {
    var sys := states[k];
    HistoriesLinearizable(states, steps, k);
    forall o | 0 <= o < |sys.ops| ensures !Premature(sys, o) {
      SaidNoKeyIff(sys, o);
      if sys.inputs[o].Write? { ReachedNotPremature(sys, o); }
    }
    forall i | 0 <= i < |sys.events| && AppliedAt(sys.inputs, sys.events, i) && sys.ops[sys.events[i]].status.Done?
      ensures i <= sys.ops[sys.events[i]].status.at
    {
      var o := sys.events[i];
      assert OpOk(sys, o);
      if sys.ops[o].status.at < i { ReachedOnce(sys, o, sys.ops[o].status.at, i); }
    }
  }

  /** Nothing is executed for an operation that has returned. */
  predicate Prompt(sys: System)
    requires |sys.ops| == |sys.inputs| && Listed(sys.inputs, sys.events)
  {
    forall i :: 0 <= i < |sys.events| && sys.ops[sys.events[i]].status.Done? ==> i <= sys.ops[sys.events[i]].status.at
  }

  /** If failed calls are executed before their operation returns or not at all, nothing is applied late. */
  lemma {:induction false} PromptRunsSettled(states: seq<System>, steps: seq<Step>, k: nat)
    requires IsRun(states, steps) && k <= |steps|
    requires forall j :: 0 <= j < k && steps[j].Late? ==> steps[j].o < |states[j].ops| && states[j].ops[steps[j].o].status.Pending?
    ensures Inv(states[k]) && Prompt(states[k]) && Settled(states[k])
  {
    RunKeepsInv(states, steps, k);
    if k > 0 {
      PromptRunsSettled(states, steps, k - 1);
      PromptStep(states[k - 1], steps[k - 1]);
    }
  }

  lemma PromptStep(sys: System, step: Step)
    requires Inv(sys) && Enabled(sys, step) && Prompt(sys) && Inv(Apply(sys, step))
    requires step.Late? ==> sys.ops[step.o].status.Pending?
    ensures Prompt(Apply(sys, step))
  {
    var sys' := Apply(sys, step);
    forall i | 0 <= i < |sys'.events| && sys'.ops[sys'.events[i]].status.Done? ensures i <= sys'.ops[sys'.events[i]].status.at {
      if i < |sys.events| { assert OpOk(sys, sys.events[i]); }
    }
  }

  lemma {:induction false} AscendingIsAll(order: seq<nat>, n: nat, p: nat)
    requires forall p, q :: 0 <= p < q < |order| ==> order[p] < order[q]
    requires (forall p :: 0 <= p < |order| ==> order[p] < n) && (forall o :: 0 <= o < n ==> o in order)
    requires p <= n
    ensures p <= |order| && forall q :: 0 <= q < p ==> order[q] == q
  {
    if p > 0 {
      AscendingIsAll(order, n, p - 1);
      var o := p - 1;
      assert o in order;
      var q :| 0 <= q < |order| && order[q] == o;
      assert q >= p - 1 && order[p - 1] <= order[q];
      if p > 1 { assert order[p - 2] < order[p - 1]; }
    }
  }

  lemma {:induction false} AscendingAtLeast(order: seq<nat>, p: nat)
    requires p < |order| && forall p, q :: 0 <= p < q < |order| ==> order[p] < order[q]
    ensures order[p] >= p
  {
    if p > 0 { AscendingAtLeast(order, p - 1); }
  }

  /** A sequential history has one order. */
  lemma OneOrder(sys: System, order: seq<nat>)
    requires Linearizes(sys, order)
    requires forall a, b :: 0 <= a < b < |sys.ops| ==> Precedes(sys, a, b)
    requires forall o :: 0 <= o < |sys.ops| ==> sys.ops[o].status.Done?
    ensures order == seq(|sys.ops|, o => o)
  {
    forall p, q | 0 <= p < q < |order| ensures order[p] < order[q] {
      assert order[p] != order[q] && !Precedes(sys, order[q], order[p]);
    }
    AscendingIsAll(order, |sys.ops|, |sys.ops|);
    if order != [] { AscendingAtLeast(order, |order| - 1); }
  }

  lemma OneMore(states: seq<System>, steps: seq<Step>, step: Step) returns (states': seq<System>, steps': seq<Step>)
    requires IsRun(states, steps) && Enabled(states[|steps|], step)
    ensures IsRun(states', steps') && |steps'| == |steps| + 1 && states'[|steps'|] == Apply(states[|steps|], step)
  {
    states', steps' := states + [Apply(states[|steps|], step)], steps + [step];
  }

  /** Key "k" is made; a `Put` at version 2, not reached yet, loses its first call and is then refused. */
  lemma StrayRefused() returns (states: seq<System>, steps: seq<Step>)
    ensures IsRun(states, steps)
    ensures states[|steps|] == System(
              [Write("k", "a", 0), Write("k", "b", 2)],
              [Op(true, 0, 0, Done(Output("", 0, OK), 0, 1)), Op(false, 2, 1, Done(Output("", 0, ErrMaybe), 1, 4))],
              map["k" := Data(1, "a")], [0, 1], [1, 4], 5)
  {
    states, steps := [Start()], [];
    states, steps := OneMore(states, steps, Invoke(Write("k", "a", 0)));
    states, steps := OneMore(states, steps, Answer(0));
    states, steps := OneMore(states, steps, Invoke(Write("k", "b", 2)));
    states, steps := OneMore(states, steps, LoseRequest(1));
    states, steps := OneMore(states, steps, Answer(1));
  }

  /** Another `Put` takes the key to version 2; then the lost call executes, and a read sees it. */
  lemma StrayRun() returns (states: seq<System>, steps: seq<Step>)
    ensures IsRun(states, steps)
    ensures states[|steps|] == System(
              [Write("k", "a", 0), Write("k", "b", 2), Write("k", "c", 1), Read("k")],
              [Op(true, 0, 0, Done(Output("", 0, OK), 0, 1)), Op(false, 2, 1, Done(Output("", 0, ErrMaybe), 1, 4)),
               Op(true, 5, 2, Done(Output("", 0, OK), 2, 6)), Op(true, 8, 4, Done(Output("b", 3, OK), 4, 9))],
              map["k" := Data(3, "b")], [0, 1, 2, 1, 3], [1, 4, 6, 7, 9], 10)
  {
    states, steps := StrayRefused();
    states, steps := OneMore(states, steps, Invoke(Write("k", "c", 1)));
    states, steps := OneMore(states, steps, Answer(2));
    states, steps := OneMore(states, steps, Late(1));
    states, steps := OneMore(states, steps, Invoke(Read("k")));
    states, steps := OneMore(states, steps, Answer(3));
  }

  predicate StrayHistory(sys: System) {
    && sys.inputs == [Write("k", "a", 0), Write("k", "b", 2), Write("k", "c", 1), Read("k")]
    && sys.ops == [Op(true, 0, 0, Done(Output("", 0, OK), 0, 1)), Op(false, 2, 1, Done(Output("", 0, ErrMaybe), 1, 4)),
                   Op(true, 5, 2, Done(Output("", 0, OK), 2, 6)), Op(true, 8, 4, Done(Output("b", 3, OK), 4, 9))]
  }

  lemma StrayNoOrder(sys: System)
    requires StrayHistory(sys)
    ensures !Linearizable(sys)
  {
    forall order | Linearizes(sys, order) ensures false {
      OneOrder(sys, order);
      StraySpec(sys, order);
    }
  }

  /** A version not reached yet is what it takes: a timely history that no order explains, because a lost
      call was applied after its clerk had returned. */
  lemma StrayWrite() returns (states: seq<System>, steps: seq<Step>)
    ensures IsRun(states, steps) && Inv(states[|steps|])
    ensures Timely(states[|steps|]) && !Settled(states[|steps|]) && !Linearizable(states[|steps|])
  {
    states, steps := StrayRun();
    var sys := states[|steps|];
    assert StrayHistory(sys);
    HistoriesLinearizable(states, steps, |steps|);
    forall o | 0 <= o < |sys.ops| ensures !Premature(sys, o) { SaidNoKeyIff(sys, o); }
    StrayNoOrder(sys);
  }

  lemma StraySpec(sys: System, order: seq<nat>)
    requires Ordering(sys, order) && order == [0, 1, 2, 3]
    requires sys.inputs == [Write("k", "a", 0), Write("k", "b", 2), Write("k", "c", 1), Read("k")]
    requires sys.ops[0].status.Done? && sys.ops[0].status.out.err == OK
    requires sys.ops[1].status.Done? && sys.ops[1].status.out.err == ErrMaybe
    requires sys.ops[2].status.Done? && sys.ops[2].status.out.err == OK
    requires sys.ops[3].status.Done? && sys.ops[3].status.out.value == "b"
    ensures !Spec(sys, order, "k").0
  {
    assert order[..3] == [0, 1, 2] && order[..3][..2] == [0, 1] && [0, 1][..1] == [0] && [0][..0] == [];
    assert Spec(sys, [0], "k") == (true, KvState("a", 1));
    assert Spec(sys, [0, 1], "k") == (true, KvState("a", 1));
    assert Spec(sys, [0, 1, 2], "k") == (true, KvState("c", 2));
  }

  /** `OK` means applied, `ErrVersion` that no execution ever applies it, `ErrNoKey` that none has up to the
      answer; and whatever the clerk returned, and however late its calls execute, at most one execution
      applies it. */
  lemma OutcomeTellsEffect(states: seq<System>, steps: seq<Step>, k: nat, o: nat)
    requires IsRun(states, steps) && k <= |steps| && o < |states[k].ops|
    ensures var sys := states[k];
            Inv(sys) && (sys.inputs[o].Write? && sys.ops[o].status.Done? ==>
              && (sys.ops[o].status.out.err == OK ==> Applied(sys, o))
              && (sys.ops[o].status.out.err == ErrVersion ==> !Applied(sys, o))
              && (sys.ops[o].status.out.err == ErrNoKey && Settled(sys) ==> !Applied(sys, o)))
    ensures var sys := states[k];
            forall i, j | 0 <= i < |sys.events| && 0 <= j < |sys.events| && sys.events[i] == o && sys.events[j] == o ::
              AppliedAt(sys.inputs, sys.events, i) && AppliedAt(sys.inputs, sys.events, j) ==> i == j
  {
    RunKeepsInv(states, steps, k);
    var sys := states[k];
    assert OpOk(sys, o);
    if sys.inputs[o].Write? && sys.ops[o].status.Done? && Settled(sys) && Applied(sys, o) {
      var i :| 0 <= i < |sys.events| && sys.events[i] == o && AppliedAt(sys.inputs, sys.events, i);
      AppliedOutput(sys, i);
    }
    forall i, j | 0 <= i < j < |sys.events| && sys.events[i] == o && sys.events[j] == o && AppliedAt(sys.inputs, sys.events, i)
      ensures !AppliedAt(sys.inputs, sys.events, j)
    {
      AppliedOnlyOnce(sys.inputs, sys.events, i, j);
    }
  }

  /** A call of the operation failed, before or after the server executed it. */
  predicate LostAt(steps: seq<Step>, j: nat, o: nat) {
    j < |steps| && (steps[j] == LoseRequest(o) || steps[j] == LoseReply(o))
  }

  lemma {:induction false} RetriedIffLost(states: seq<System>, steps: seq<Step>, k: nat, o: nat)
    requires IsRun(states, steps) && k <= |steps|
    ensures o < |states[k].ops| ==> (!states[k].ops[o].firstTry <==> exists j :: 0 <= j < k && LostAt(steps, j, o))
    ensures o >= |states[k].ops| ==> forall j :: 0 <= j < k ==> !LostAt(steps, j, o)
  {
    if k > 0 {
      RetriedIffLost(states, steps, k - 1, o);
      if LostAt(steps, k - 1, o) {
        assert !states[k].ops[o].firstTry;
      }
    }
  }

  /** What the clerk returns, from what the server answered in the execution that got through: the same, except
      that `ErrVersion` becomes `ErrMaybe` if and only if an earlier call of the `Put` was lost. */
  lemma AnswerIsServers(states: seq<System>, steps: seq<Step>, k: nat, o: nat)
    requires IsRun(states, steps) && k <= |steps| && o < |states[k].ops| && states[k].ops[o].status.Done?
    ensures Inv(states[k]) && states[k].ops[o].status.at < |states[k].events|
    ensures var sys := states[k];
            var answer, out := OutAt(sys.inputs, sys.events, sys.ops[o].status.at), sys.ops[o].status.out;
            var lost := exists j :: 0 <= j < k && LostAt(steps, j, o);
            && (out.err == ErrMaybe <==> sys.inputs[o].Write? && answer.err == ErrVersion && lost)
            && (out.err != ErrMaybe ==> out == answer)
            && (sys.inputs[o].Write? ==> (out.err == OK <==> AppliedAt(sys.inputs, sys.events, sys.ops[o].status.at)))
  {
    RunKeepsInv(states, steps, k);
    RetriedIffLost(states, steps, k, o);
    var sys := states[k];
    assert OpOk(sys, o);
    NeverMaybe(StoreAt(sys.inputs, sys.events, sys.ops[o].status.at), sys.inputs[o]);
  }

  /** The server itself never says `ErrMaybe`. */
  lemma NeverMaybe(kv: Store, inp: Input)
    ensures Execute(kv, inp).1.err != ErrMaybe
  {
  }

  // ----- the retry loop -----

  /** What becomes of one call. */
  datatype Fate = RequestLost | ReplyLost | Delivered

  /** The calls of one `Put`: the last is the first that is delivered. */
  predicate Calls(fates: seq<Fate>) {
    fates != [] && fates[|fates| - 1] == Delivered && forall i :: 0 <= i < |fates| - 1 ==> fates[i] != Delivered
  }

  /** A `Put` whose calls meet the given fates while no other clerk interferes. */
  function PutAlone(kv: Store, key: string, value: string, version: nat, fates: seq<Fate>, firstTry: bool): (Store, Err)
    requires Calls(fates)
    decreases |fates|
  {
    match fates[0]
    case RequestLost => PutAlone(kv, key, value, version, fates[1..], false)
    case ReplyLost => PutAlone(Put(kv, key, value, version).0, key, value, version, fates[1..], false)
    case Delivered =>
      var (kv', err) := Put(kv, key, value, version);
      (kv', if !firstTry && err == ErrVersion then ErrMaybe else err)
  }

  /** The loop of `Clerk.Put`. */
  method ClerkPut(server: KVServer, key: string, value: string, version: nat, fates: seq<Fate>) returns (err: Err)
    requires Calls(fates)
    modifies server
    ensures (server.keyValue, err) == PutAlone(old(server.keyValue), key, value, version, fates, true)
  {
    var isFirstTry, i := true, 0;
    while fates[i] != Delivered
      invariant 0 <= i < |fates| && Calls(fates[i..])
      invariant PutAlone(server.keyValue, key, value, version, fates[i..], isFirstTry)
                == PutAlone(old(server.keyValue), key, value, version, fates, true)
      decreases |fates| - i
    {
      if fates[i] == ReplyLost { var _ := server.HandlePut(key, value, version); }
      isFirstTry := false;
      assert fates[i..][1..] == fates[i + 1..];
      i := i + 1;
    }
    err := server.HandlePut(key, value, version);
    if !isFirstTry && err == ErrVersion { err := ErrMaybe; }
  }

  /** Without interference a `Put` takes effect as one execution would, however often it is retried; and what it
      returns is exactly: what that execution answers, but `ErrMaybe` for an `OK` whose reply was lost and for an
      `ErrVersion` after any call was lost. */
  lemma {:induction false} PutAloneEffect(kv: Store, key: string, value: string, version: nat, fates: seq<Fate>, firstTry: bool)
    requires Calls(fates)
    ensures var (kv', err) := PutAlone(kv, key, value, version, fates, firstTry);
            var once := Put(kv, key, value, version);
            && kv' == once.0
            && err == (if once.1 == OK && ReplyLost in fates then ErrMaybe
                       else if once.1 == ErrVersion && (!firstTry || |fates| > 1) then ErrMaybe
                       else once.1)
    decreases |fates|
  {
    PutEffect(kv, key, value, version);
    var kv1 := Put(kv, key, value, version).0;
    PutEffect(kv1, key, value, version);
    var rest := fates[1..];
    assert fates == [fates[0]] + rest;
    match fates[0]
    case RequestLost => PutAloneEffect(kv, key, value, version, rest, false);
    case ReplyLost => PutAloneEffect(kv1, key, value, version, rest, false);
    case Delivered => assert |fates| == 1;
  }
}
