/** The versioned key/value store of `src/kvsrv1/server.go` and `src/kvraft1/server.go`, and the
    sequential specification of `src/models1/kv.go` it is judged by. */
module KeyValue {

  datatype Data = Data(version: nat, value: string)

  type Store = map<string, Data>

  datatype Err = OK | ErrNoKey | ErrVersion | ErrMaybe | ErrWrongGroup

  /** An absent key reads as the empty value at version 0. */
  datatype Got = Got(value: string, version: nat, err: Err)

  function Put(kv: Store, key: string, value: string, version: nat): (Store, Err) {
    if key !in kv then
      if version != 0 then (kv, ErrNoKey) else (kv[key := Data(version + 1, value)], OK)
    else if version != kv[key].version then (kv, ErrVersion)
    else (kv[key := Data(version + 1, value)], OK)
  }

  function Get(kv: Store, key: string): Got {
    if key !in kv then Got("", 0, ErrNoKey) else Got(kv[key].value, kv[key].version, OK)
  }

  /** A `Put` changes the store exactly when it answers `OK`, then only its key, whose version rises
      by one from the version asked for; no key is ever removed. */
  lemma PutEffect(kv: Store, key: string, value: string, version: nat)
    ensures var (kv', err) := Put(kv, key, value, version);
            && (err == OK <==> Get(kv, key).version == version && (key in kv || version == 0))
            && (err == OK <==> kv' != kv)
            && (err == OK ==> Get(kv', key) == Got(value, version + 1, OK))
            && kv.Keys <= kv'.Keys
            && (forall k :: k != key ==> Get(kv', k) == Get(kv, k))
            && Get(kv, key).version <= Get(kv', key).version
  {
    var (kv', err) := Put(kv, key, value, version);
    if err == OK {
      assert Get(kv', key).version != Get(kv, key).version;
    }
  }

  // ----- the sequential specification -----

  datatype KvState = KvState(value: string, version: nat)

  datatype Input = Read(key: string) | Write(key: string, value: string, version: nat)

  datatype Output = Output(value: string, version: nat, err: Err)

  function Init(): KvState {
    KvState("", 0)
  }

  /** `KvModel.Step`: whether the output is allowed, and the next state of the key. */
  function Step(st: KvState, inp: Input, out: Output): (bool, KvState) {
    match inp
    case Read(_) => (out.value == st.value, st)
    case Write(_, value, version) =>
      if st.version == version
      then (out.err == OK || out.err == ErrMaybe, KvState(value, st.version + 1))
      else (out.err == ErrVersion || out.err == ErrMaybe, st)
  }

  /** The state of one key in a store. */
  function StateOf(kv: Store, key: string): KvState {
    KvState(Get(kv, key).value, Get(kv, key).version)
  }

  /** The server's execution of one request. */
  function Execute(kv: Store, inp: Input): (Store, Output) {
    match inp
    case Read(key) => var g := Get(kv, key); (kv, Output(g.value, g.version, g.err))
    case Write(key, value, version) => var (kv', err) := Put(kv, key, value, version); (kv', Output("", 0, err))
  }

  /** The request the server answers with `ErrNoKey`: a `Put` with a version for a key it does not have. */
  predicate Unmet(kv: Store, inp: Input) {
    inp.Write? && inp.key !in kv && inp.version != 0
  }

  /** The server refines the specification key by key, except for exactly the requests it cannot meet. */
  lemma ServerRefinesModel(kv: Store, inp: Input)
    ensures var (kv', out) := Execute(kv, inp);
            var (allowed, st) := Step(StateOf(kv, inp.key), inp, out);
            && (allowed <==> !Unmet(kv, inp)) && (Unmet(kv, inp) <==> inp.Write? && out.err == ErrNoKey)
            && st == StateOf(kv', inp.key)
            && forall k :: k != inp.key ==> StateOf(kv', k) == StateOf(kv, k)
  {
  }

  /** The server object: its map is updated in place under its mutex. */
  class KVServer {
    var keyValue: Store

    constructor ()
      ensures keyValue == map[]
    {
      keyValue := map[];
    }

    method HandleGet(key: string) returns (reply: Got)
      ensures reply == Get(keyValue, key)
    {
      if key !in keyValue {
        reply := Got("", 0, ErrNoKey);
      } else {
        reply := Got(keyValue[key].value, keyValue[key].version, OK);
      }
    }

    method HandlePut(key: string, value: string, version: nat) returns (err: Err)
      modifies this
      ensures (keyValue, err) == Put(old(keyValue), key, value, version)
    {
      if key !in keyValue {
        if version != 0 { return ErrNoKey; }
        keyValue := keyValue[key := Data(version + 1, value)];
        return OK;
      }
      if version != keyValue[key].version { return ErrVersion; }
      keyValue := keyValue[key := Data(version + 1, value)];
      err := OK;
    }
  }
}
