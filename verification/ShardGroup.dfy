/** One shard group of `src/shardkv1/shardgrp/server.go`: a replicated group seen as the single
    state machine its log drives. */
module ShardGroup {
  import opened KeyValue

  type Gid = nat
  type Shard = nat
  type Num = nat

  const NSHARDS := 12
  const GID1: Gid := 1
  const NUM_FIRST: Num := 1

  datatype Ownership = DontOwn | Frozen | Working

  datatype Config = Config(state: Ownership, version: Num)

  datatype Group = Group(configs: map<Shard, Config>, tables: map<Shard, Store>)

  /** The bytes of a shard: none when a freeze was refused. */
  datatype Payload = Nothing | Contents(table: Store)

  datatype Request =
    | PutKey(key: string, value: string, version: nat)
    | GetKey(key: string)
    | Freeze(shard: Shard, num: Num)
    | Install(shard: Shard, num: Num, payload: Payload)
    | Delete(shard: Shard, num: Num)

  datatype Response =
    | Stored(err: Err)
    | Fetched(got: Got)
    | FrozenAs(payload: Payload, num: Num, err: Err)
    | Installed(err: Err)
    | Deleted(err: Err)

  /** Absent entries of Go's maps read as zero values. */
  function ConfigOf(g: Group, sh: Shard): Config {
    if sh in g.configs then g.configs[sh] else Config(DontOwn, 0)
  }

  function TableOf(g: Group, sh: Shard): Store {
    if sh in g.tables then g.tables[sh] else map[]
  }

  /** Every shard but `sh` is left as it was. */
  ghost predicate OthersKept(g: Group, g': Group, sh: Shard) {
    forall s :: s != sh ==> ConfigOf(g', s) == ConfigOf(g, s) && TableOf(g', s) == TableOf(g, s)
  }

  function DoOp(g: Group, shardOf: string -> Shard, req: Request): (Group, Response) {
    match req
    case PutKey(key, value, version) =>
      var sh := shardOf(key);
      if ConfigOf(g, sh).state != Working then (g, Stored(ErrWrongGroup))
      else
        var (table, err) := Put(TableOf(g, sh), key, value, version);
        (g.(tables := g.tables[sh := table]), Stored(err))
    case GetKey(key) =>
      var sh := shardOf(key);
      if ConfigOf(g, sh).state != Working then (g, Fetched(Got("", 0, ErrWrongGroup)))
      else (g, Fetched(Get(TableOf(g, sh), key)))
    case Freeze(sh, num) =>
      var config := ConfigOf(g, sh);
      if config.version > num || config.state == DontOwn then (g, FrozenAs(Nothing, config.version, ErrVersion))
      else (g.(configs := g.configs[sh := Config(Frozen, num)]), FrozenAs(Contents(TableOf(g, sh)), num, OK))
    case Install(sh, num, payload) =>
      if ConfigOf(g, sh).version >= num then (g, Installed(ErrVersion))
      else
        var table := if payload.Contents? then payload.table else map[];
        (Group(g.configs[sh := Config(Working, num)], g.tables[sh := table]), Installed(OK))
    case Delete(sh, num) =>
      if ConfigOf(g, sh).version > num then (g, Deleted(ErrVersion))
      else (Group(g.configs[sh := Config(DontOwn, num)], g.tables - {sh}), Deleted(OK))
  }

  function ShardOfRequest(shardOf: string -> Shard, req: Request): Shard {
    match req
    case PutKey(key, _, _) => shardOf(key)
    case GetKey(key) => shardOf(key)
    case Freeze(sh, _) => sh
    case Install(sh, _, _) => sh
    case Delete(sh, _) => sh
  }

  /** No request touches another shard or lowers a config version. */
  lemma RequestIsLocal(g: Group, shardOf: string -> Shard, req: Request)
    ensures var sh, g' := ShardOfRequest(shardOf, req), DoOp(g, shardOf, req).0;
            OthersKept(g, g', sh) && ConfigOf(g, sh).version <= ConfigOf(g', sh).version
  {
  }

  /** A client is told `ErrWrongGroup` if and only if the group does not work on the key's shard; a group that does
      answers from the shard's table, and a Put changes that table and nothing else. */
  lemma ClientOutcome(g: Group, shardOf: string -> Shard, key: string, value: string, version: nat)
    ensures var (g', r) := DoOp(g, shardOf, GetKey(key));
            var sh := shardOf(key);
            && g' == g && r.Fetched? && (r.got.err == ErrWrongGroup <==> ConfigOf(g, sh).state != Working)
            && (ConfigOf(g, sh).state == Working ==> r.got == Get(TableOf(g, sh), key))
    ensures var (g', r) := DoOp(g, shardOf, PutKey(key, value, version));
            var sh := shardOf(key);
            && r.Stored? && (r.err == ErrWrongGroup <==> ConfigOf(g, sh).state != Working)
            && g'.configs == g.configs && OthersKept(g, g', sh)
            && (TableOf(g', sh), r.err) == if ConfigOf(g, sh).state == Working then Put(TableOf(g, sh), key, value, version)
                                           else (TableOf(g, sh), ErrWrongGroup)
  {
  }

  /** When a group carries a migration request out, and what it then has of the shard: a freeze unless it has
      given the shard up or knows a later configuration, an installation only of a later one, a deletion unless
      it knows a later one. Otherwise nothing changes. */
  lemma MoveOutcome(g: Group, shardOf: string -> Shard, sh: Shard, num: Num, payload: Payload)
    ensures var (g', r) := DoOp(g, shardOf, Freeze(sh, num));
            if num >= ConfigOf(g, sh).version && ConfigOf(g, sh).state != DontOwn
            then ConfigOf(g', sh) == Config(Frozen, num) && TableOf(g', sh) == TableOf(g, sh)
                 && r == FrozenAs(Contents(TableOf(g, sh)), num, OK)
            else g' == g && r == FrozenAs(Nothing, ConfigOf(g, sh).version, ErrVersion)
    ensures var (g', r) := DoOp(g, shardOf, Install(sh, num, payload));
            if num > ConfigOf(g, sh).version
            then ConfigOf(g', sh) == Config(Working, num) && r == Installed(OK)
                 && TableOf(g', sh) == if payload.Contents? then payload.table else map[]
            else g' == g && r == Installed(ErrVersion)
    ensures var (g', r) := DoOp(g, shardOf, Delete(sh, num));
            if num >= ConfigOf(g, sh).version
            then ConfigOf(g', sh) == Config(DontOwn, num) && TableOf(g', sh) == map[] && r == Deleted(OK)
            else g' == g && r == Deleted(ErrVersion)
  {
  }

  class KVServer {
    const shardOf: string -> Shard
    var shardConfiguration: map<Shard, Config>
    var keyValue: map<Shard, Store>

    ghost function View(): Group
      reads this
    {
      Group(shardConfiguration, keyValue)
    }

    /** `StartServerShardGrp`: the first group owns every shard from the first configuration. */
    constructor (gid: Gid, shardOf: string -> Shard)
      ensures View() == Fresh(gid) && this.shardOf == shardOf
    {
      this.shardOf := shardOf;
      keyValue := map[];
      shardConfiguration := map[];
      new;
      if gid == GID1 {
        for sh := 0 to NSHARDS
          modifies this`shardConfiguration
          invariant shardConfiguration == FirstConfigs(sh)
        {
          shardConfiguration := shardConfiguration[sh := Config(Working, NUM_FIRST)];
        }
      }
    }

    method Execute(req: Request) returns (response: Response)
      modifies this
      ensures (View(), response) == DoOp(old(View()), shardOf, req)
      ensures req.GetKey? ==>
                response == Fetched(if ConfigOf(old(View()), shardOf(req.key)).state == Working
                                    then Get(TableOf(old(View()), shardOf(req.key)), req.key) else Got("", 0, ErrWrongGroup))
      ensures req.PutKey? ==>
                response == Stored(if ConfigOf(old(View()), shardOf(req.key)).state == Working
                                   then Put(TableOf(old(View()), shardOf(req.key)), req.key, req.value, req.version).1
                                   else ErrWrongGroup)
    {
      match req
      case PutKey(key, value, version) => response := ExecutePut(key, value, version);
      case GetKey(key) => response := ExecuteGet(key);
      case Freeze(sh, num) =>
        var config := Lookup(sh);
        if config.version > num || config.state == DontOwn { return FrozenAs(Nothing, config.version, ErrVersion); }
        shardConfiguration := shardConfiguration[sh := Config(Frozen, num)];
        response := FrozenAs(Contents(if sh in keyValue then keyValue[sh] else map[]), num, OK);
      case Install(sh, num, payload) =>
        var config := Lookup(sh);
        if config.version >= num { return Installed(ErrVersion); }
        shardConfiguration := shardConfiguration[sh := Config(Working, num)];
        keyValue := keyValue[sh := if payload.Contents? then payload.table else map[]];
        response := Installed(OK);
      case Delete(sh, num) =>
        var config := Lookup(sh);
        if config.version > num { return Deleted(ErrVersion); }
        shardConfiguration := shardConfiguration[sh := Config(DontOwn, num)];
        keyValue := keyValue - {sh};
        response := Deleted(OK);
    }

    method Lookup(sh: Shard) returns (config: Config)
      ensures config == ConfigOf(View(), sh)
    {
      config := if sh in shardConfiguration then shardConfiguration[sh] else Config(DontOwn, 0);
    }

    method ExecutePut(key: string, value: string, version: nat) returns (response: Response)
      modifies this`keyValue
      ensures (View(), response) == DoOp(old(View()), shardOf, PutKey(key, value, version))
    {
      var sh := shardOf(key);
      var config := Lookup(sh);
      if config.state != Working { return Stored(ErrWrongGroup); }
      if sh !in keyValue { keyValue := keyValue[sh := map[]]; }
      var table := keyValue[sh];
      assert keyValue == keyValue[sh := table] == old(keyValue)[sh := table];
      if key !in table {
        if version != 0 { return Stored(ErrNoKey); }
        keyValue := keyValue[sh := table[key := Data(version + 1, value)]];
        assert keyValue == old(keyValue)[sh := table[key := Data(version + 1, value)]];
        return Stored(OK);
      }
      if version != table[key].version { return Stored(ErrVersion); }
      keyValue := keyValue[sh := table[key := Data(version + 1, value)]];
      response := Stored(OK);
    }

    method ExecuteGet(key: string) returns (response: Response)
      ensures (View(), response) == DoOp(View(), shardOf, GetKey(key))
    {
      var sh := shardOf(key);
      var config := Lookup(sh);
      if config.state != Working { return Fetched(Got("", 0, ErrWrongGroup)); }
      if sh !in keyValue || key !in keyValue[sh] { return Fetched(Got("", 0, ErrNoKey)); }
      response := Fetched(Got(keyValue[sh][key].value, keyValue[sh][key].version, OK));
    }
  }

  function FirstConfigs(n: nat): (configs: map<Shard, Config>)
    ensures forall sh :: sh in configs <==> 0 <= sh < n
    ensures forall sh :: sh in configs ==> configs[sh] == Config(Working, NUM_FIRST)
  {
    if n == 0 then map[] else FirstConfigs(n - 1)[n - 1 := Config(Working, NUM_FIRST)]
  }

  function Fresh(gid: Gid): Group {
    Group(if gid == GID1 then FirstConfigs(NSHARDS) else map[], map[])
  }
}
