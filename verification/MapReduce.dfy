/** The data path of `src/mr/worker.go` against the sequential reference of `src/main/mrsequential.go`:
    pairs go through hashed buckets and text files, and the same lines come out. */
module MapReduce {

  datatype KeyValue = KeyValue(key: string, value: string)

  type Reduce = (string, seq<string>) -> string

  // ----- pairs -----

  function Keys(pairs: seq<KeyValue>): set<string> {
    if pairs == [] then {} else {pairs[0].key} + Keys(pairs[1..])
  }

  /** The values of a key, in order. */
  function ValuesOf(pairs: seq<KeyValue>, key: string): seq<string> {
    if pairs == [] then []
    else (if pairs[0].key == key then [pairs[0].value] else []) + ValuesOf(pairs[1..], key)
  }

  /** The pairs with some of the keys, in order. */
  function Selected(pairs: seq<KeyValue>, keep: string -> bool): seq<KeyValue> {
    if pairs == [] then []
    else (if keep(pairs[0].key) then [pairs[0]] else []) + Selected(pairs[1..], keep)
  }

  predicate Belongs(key: string, hash: string -> nat, buckets: nat, b: nat)
    requires buckets > 0
  {
    hash(key) % buckets == b
  }

  /** The pairs a bucket gets. */
  function Bucket(pairs: seq<KeyValue>, hash: string -> nat, buckets: nat, b: nat): seq<KeyValue>
    requires buckets > 0
  {
    Selected(pairs, key => Belongs(key, hash, buckets, b))
  }

  function Concat(kvas: seq<seq<KeyValue>>): seq<KeyValue> {
    if kvas == [] then [] else kvas[0] + Concat(kvas[1..])
  }

  /** What reduce makes of each key. */
  function OutputOf(reducef: Reduce, pairs: seq<KeyValue>): string -> string {
    key => reducef(key, ValuesOf(pairs, key))
  }

  ghost predicate OrderInsensitive(reducef: Reduce) {
    forall key, values, values' :: multiset(values) == multiset(values') ==> reducef(key, values) == reducef(key, values')
  }

  // ----- text -----

  function Line(key: string, value: string): string {
    key + " " + value + "\n"
  }

  function Print(pairs: seq<KeyValue>): string {
    if pairs == [] then "" else Line(pairs[0].key, pairs[0].value) + Print(pairs[1..])
  }

  /** `strings.Split` at newlines. */
  function Split(text: string): (lines: seq<string>)
    ensures |lines| > 0
  {
    if text == "" then [""]
    else if text[0] == '\n' then [""] + Split(text[1..])
    else var rest := Split(text[1..]); [[text[0]] + rest[0]] + rest[1..]
  }

  datatype Parts = One | Two(head: string, tail: string)

  /** `strings.SplitN` into at most two parts at a space. */
  function Cut(line: string): Parts {
    if line == "" then One
    else if line[0] == ' ' then Two("", line[1..])
    else match Cut(line[1..])
      case One => One
      case Two(head, tail) => Two([line[0]] + head, tail)
  }

  /** A line without a space makes the worker index past the parts. */
  datatype Parsed = Pairs(pairs: seq<KeyValue>) | Panic

  function Append(a: Parsed, b: Parsed): Parsed {
    if a.Pairs? && b.Pairs? then Pairs(a.pairs + b.pairs) else Panic
  }

  function ParseLine(line: string): Parsed {
    if line == "" then Pairs([])
    else match Cut(line)
      case One => Panic
      case Two(key, value) => Pairs([KeyValue(key, value)])
  }

  function ParseLines(lines: seq<string>): Parsed {
    if lines == [] then Pairs([]) else Append(ParseLine(lines[0]), ParseLines(lines[1..]))
  }

  function Parse(text: string): Parsed {
    ParseLines(Split(text))
  }

  function ParseFiles(texts: seq<string>): Parsed {
    if texts == [] then Pairs([]) else Append(Parse(texts[0]), ParseFiles(texts[1..]))
  }

  /** The pairs that survive printing. */
  predicate Clean(kv: KeyValue) {
    ' ' !in kv.key && '\n' !in kv.key && '\n' !in kv.value
  }

  predicate AllClean(pairs: seq<KeyValue>) {
    forall i :: 0 <= i < |pairs| ==> Clean(pairs[i])
  }

  lemma {:induction false} SplitLine(line: string, rest: string)
    requires '\n' !in line
    ensures Split(line + "\n" + rest) == [line] + Split(rest)
  {
    var text := line + "\n" + rest;
    if line == "" {
      assert text[1..] == rest;
    } else {
      assert text[1..] == line[1..] + "\n" + rest;
      SplitLine(line[1..], rest);
      assert text[0] == line[0] && [line[0]] + line[1..] == line;
    }
  }

  lemma {:induction false} CutKey(key: string, value: string)
    requires ' ' !in key
    ensures Cut(key + " " + value) == Two(key, value)
  {
    var line := key + " " + value;
    if key == "" {
      assert line[1..] == value;
    } else {
      assert line[1..] == key[1..] + " " + value;
      CutKey(key[1..], value);
      assert [key[0]] + key[1..] == key;
    }
  }

  lemma {:induction false} PrintThenParse(pairs: seq<KeyValue>)
    requires AllClean(pairs)
    ensures Parse(Print(pairs)) == Pairs(pairs)
  {
    if pairs == [] {
      assert ParseLines([""][1..]) == Pairs([]);
    } else {
      var kv := pairs[0];
      var line := kv.key + " " + kv.value;
      assert Clean(kv);
      PrintThenParse(pairs[1..]);
      assert Print(pairs) == line + "\n" + Print(pairs[1..]);
      SplitLine(line, Print(pairs[1..]));
      CutKey(kv.key, kv.value);
      var lines := Split(Print(pairs));
      assert lines[0] == line && lines[1..] == Split(Print(pairs[1..]));
      assert [kv] + pairs[1..] == pairs;
    }
  }

  lemma {:induction false} LinesHaveNoNewline(text: string, i: nat)
    requires i < |Split(text)|
    ensures '\n' !in Split(text)[i]
  {
    if text != "" {
      if text[0] == '\n' {
        if i > 0 { LinesHaveNoNewline(text[1..], i - 1); }
      } else {
        LinesHaveNoNewline(text[1..], i);
      }
    }
  }

  lemma {:induction false} CutIsClean(line: string)
    requires '\n' !in line && Cut(line).Two?
    ensures Clean(KeyValue(Cut(line).head, Cut(line).tail))
  {
    if line[0] != ' ' { CutIsClean(line[1..]); }
  }

  lemma {:induction false} ParsedAreClean(lines: seq<string>)
    requires ParseLines(lines).Pairs? && forall i :: 0 <= i < |lines| ==> '\n' !in lines[i]
    ensures AllClean(ParseLines(lines).pairs)
  {
    if lines != [] {
      ParsedAreClean(lines[1..]);
      if lines[0] != "" { CutIsClean(lines[0]); }
    }
  }

  /** Printing and parsing gives the pairs back exactly when no key holds a space or newline and no
      value a newline. */
  lemma RoundTripIffClean(pairs: seq<KeyValue>)
    ensures Parse(Print(pairs)) == Pairs(pairs) <==> AllClean(pairs)
  {
    if AllClean(pairs) {
      PrintThenParse(pairs);
    } else if Parse(Print(pairs)).Pairs? {
      var lines := Split(Print(pairs));
      forall i | 0 <= i < |lines| ensures '\n' !in lines[i] { LinesHaveNoNewline(Print(pairs), i); }
      ParsedAreClean(lines);
    }
  }

  // ----- output lines -----

  /** One line for each key, in no particular order. */
  ghost function LinesOf(keys: set<string>, f: string -> string): multiset<string> {
    if keys == {} then multiset{}
    else
      var key :| key in keys;
      multiset{Line(key, f(key))} + LinesOf(keys - {key}, f)
  }

  lemma {:induction false} LinesPick(keys: set<string>, f: string -> string, key: string)
    requires key in keys
    ensures LinesOf(keys, f) == multiset{Line(key, f(key))} + LinesOf(keys - {key}, f)
    decreases |keys|
  {
    var k :| k in keys && LinesOf(keys, f) == multiset{Line(k, f(k))} + LinesOf(keys - {k}, f);
    if k != key {
      LinesPick(keys - {k}, f, key);
      LinesPick(keys - {key}, f, k);
      assert keys - {k} - {key} == keys - {key} - {k};
    }
  }

  lemma {:induction false} LinesSame(keys: set<string>, f: string -> string, f': string -> string)
    requires forall key :: key in keys ==> f(key) == f'(key)
    ensures LinesOf(keys, f) == LinesOf(keys, f')
    decreases |keys|
  {
    if keys != {} {
      var key :| key in keys;
      LinesPick(keys, f, key);
      LinesPick(keys, f', key);
      LinesSame(keys - {key}, f, f');
    }
  }

  lemma {:induction false} LinesUnion(a: set<string>, b: set<string>, f: string -> string)
    requires a !! b
    ensures LinesOf(a + b, f) == LinesOf(a, f) + LinesOf(b, f)
    decreases |b|
  {
    if b == {} {
      assert a + b == a;
    } else {
      var key :| key in b;
      var rest, line := b - {key}, multiset{Line(key, f(key))};
      assert (a + b) - {key} == a + rest;
      calc {
        LinesOf(a + b, f);
      == { LinesPick(a + b, f, key); }
        line + LinesOf(a + rest, f);
      == { LinesUnion(a, rest, f); }
        line + (LinesOf(a, f) + LinesOf(rest, f));
      == { Regroup(line, LinesOf(a, f), LinesOf(rest, f)); }
        LinesOf(a, f) + (line + LinesOf(rest, f));
      == { LinesPick(b, f, key); }
        LinesOf(a, f) + LinesOf(b, f);
      }
    }
  }

  lemma Regroup(x: multiset<string>, y: multiset<string>, z: multiset<string>)
    ensures x + (y + z) == y + (x + z)
  {
  }

  // ----- buckets -----

  /** A selection holds exactly its keys, each with all its values in order. */
  lemma {:induction false} SelectedHolds(pairs: seq<KeyValue>, keep: string -> bool, key: string)
    ensures var got := Selected(pairs, keep);
            && (key in Keys(got) <==> key in Keys(pairs) && keep(key))
            && (keep(key) ==> ValuesOf(got, key) == ValuesOf(pairs, key))
  {
    if pairs != [] {
      var got, rest := Selected(pairs, keep), Selected(pairs[1..], keep);
      SelectedHolds(pairs[1..], keep, key);
      if keep(pairs[0].key) {
        assert got[1..] == rest;
      } else {
        assert got == rest;
      }
    }
  }

  lemma BucketHolds(pairs: seq<KeyValue>, hash: string -> nat, buckets: nat, b: nat, key: string)
    requires buckets > 0
    ensures var got := Bucket(pairs, hash, buckets, b);
            && (key in Keys(got) <==> key in Keys(pairs) && Belongs(key, hash, buckets, b))
            && (Belongs(key, hash, buckets, b) ==> ValuesOf(got, key) == ValuesOf(pairs, key))
  {
    SelectedHolds(pairs, key => Belongs(key, hash, buckets, b), key);
  }

  lemma {:induction false} SelectedConcat(a: seq<KeyValue>, b: seq<KeyValue>, keep: string -> bool)
    ensures Selected(a + b, keep) == Selected(a, keep) + Selected(b, keep)
  {
    if a == [] {
      assert a + b == b;
    } else {
      assert (a + b)[1..] == a[1..] + b;
      SelectedConcat(a[1..], b, keep);
    }
  }

  lemma {:induction false} SelectedClean(pairs: seq<KeyValue>, keep: string -> bool)
    requires AllClean(pairs)
    ensures AllClean(Selected(pairs, keep))
  {
    if pairs != [] { SelectedClean(pairs[1..], keep); }
  }

  /** What map task `t` leaves for reduce task `b`. */
  function Files(kvas: seq<seq<KeyValue>>, hash: string -> nat, buckets: nat, b: nat): seq<string>
    requires buckets > 0
  {
    seq(|kvas|, t requires 0 <= t < |kvas| => Print(Bucket(kvas[t], hash, buckets, b)))
  }

  /** A reduce task reads back exactly its bucket of everything the maps produced. */
  lemma {:induction false} ShuffleIsExact(kvas: seq<seq<KeyValue>>, hash: string -> nat, buckets: nat, b: nat)
    requires buckets > 0 && AllClean(Concat(kvas))
    ensures ParseFiles(Files(kvas, hash, buckets, b)) == Pairs(Bucket(Concat(kvas), hash, buckets, b))
  {
    if kvas != [] {
      var all, rest := Concat(kvas), Concat(kvas[1..]);
      assert all[..|kvas[0]|] == kvas[0] && all[|kvas[0]|..] == rest;
      SelectedClean(kvas[0], key => Belongs(key, hash, buckets, b));
      PrintThenParse(Bucket(kvas[0], hash, buckets, b));
      ShuffleIsExact(kvas[1..], hash, buckets, b);
      assert Files(kvas, hash, buckets, b)[1..] == Files(kvas[1..], hash, buckets, b);
      SelectedConcat(kvas[0], rest, key => Belongs(key, hash, buckets, b));
    }
  }

  // ----- the theorem -----

  /** The lines of one reduce task. */
  ghost function ReduceLines(parsed: Parsed, reducef: Reduce): multiset<string> {
    if parsed.Panic? then multiset{} else LinesOf(Keys(parsed.pairs), OutputOf(reducef, parsed.pairs))
  }

  /** The lines of reduce task `b`. */
  ghost function TaskLines(kvas: seq<seq<KeyValue>>, hash: string -> nat, buckets: nat, b: nat,
                           reducef: Reduce): multiset<string>
    requires buckets > 0
  {
    ReduceLines(ParseFiles(Files(kvas, hash, buckets, b)), reducef)
  }

  /** The lines of several tasks together. */
  ghost function Total(f: nat -> multiset<string>, n: nat): multiset<string> {
    if n == 0 then multiset{} else Total(f, n - 1) + f(n - 1)
  }

  /** The lines of the first `n` reduce tasks together. */
  ghost function DistributedLines(kvas: seq<seq<KeyValue>>, hash: string -> nat, buckets: nat, n: nat, reducef: Reduce): multiset<string>
    requires buckets > 0
  {
    Total(TasksOf(kvas, hash, buckets, reducef), n)
  }

  ghost function TasksOf(kvas: seq<seq<KeyValue>>, hash: string -> nat, buckets: nat, reducef: Reduce): nat -> multiset<string>
    requires buckets > 0
  {
    (b: nat) => TaskLines(kvas, hash, buckets, b, reducef)
  }

  function KeysBelow(pairs: seq<KeyValue>, hash: string -> nat, buckets: nat, n: nat): set<string>
    requires buckets > 0
  {
    set key | key in Keys(pairs) && hash(key) % buckets < n
  }

  function KeysIn(pairs: seq<KeyValue>, hash: string -> nat, buckets: nat, b: nat): set<string>
    requires buckets > 0
  {
    set key | key in Keys(pairs) && Belongs(key, hash, buckets, b)
  }

  /** A reduce task writes what its keys are worth over all the pairs. */
  lemma BucketLines(kvas: seq<seq<KeyValue>>, hash: string -> nat, buckets: nat, b: nat, reducef: Reduce)
    requires buckets > 0 && AllClean(Concat(kvas))
    ensures TaskOk(kvas, hash, buckets, b, reducef)
  {
    var all := Concat(kvas);
    var got := Bucket(all, hash, buckets, b);
    ShuffleIsExact(kvas, hash, buckets, b);
    forall key ensures key in Keys(got) <==> key in KeysIn(all, hash, buckets, b) { BucketHolds(all, hash, buckets, b, key); }
    assert Keys(got) == KeysIn(all, hash, buckets, b);
    forall key | key in Keys(got) ensures OutputOf(reducef, got)(key) == OutputOf(reducef, all)(key) {
      BucketHolds(all, hash, buckets, b, key);
    }
    LinesSame(Keys(got), OutputOf(reducef, got), OutputOf(reducef, all));
  }

  lemma KeysNoneAll(pairs: seq<KeyValue>, hash: string -> nat, buckets: nat)
    requires 0 < buckets
    ensures KeysBelow(pairs, hash, buckets, 0) == {} && KeysBelow(pairs, hash, buckets, buckets) == Keys(pairs)
  {
  }

  lemma KeysStep(pairs: seq<KeyValue>, hash: string -> nat, buckets: nat, n: nat)
    requires 0 < n <= buckets
    ensures var below, here := KeysBelow(pairs, hash, buckets, n - 1), KeysIn(pairs, hash, buckets, n - 1);
            below !! here && KeysBelow(pairs, hash, buckets, n) == below + here
  {
  }

  /** A task writes the lines of the keys of its bucket. */
  ghost predicate TaskOk(kvas: seq<seq<KeyValue>>, hash: string -> nat, buckets: nat, b: nat, reducef: Reduce)
    requires buckets > 0
  {
    TaskLines(kvas, hash, buckets, b, reducef)
    == LinesOf(KeysIn(Concat(kvas), hash, buckets, b), OutputOf(reducef, Concat(kvas)))
  }

  /** Tasks that do so write every key once. */
  lemma {:induction false} BucketsAddUp(pairs: seq<KeyValue>, hash: string -> nat, buckets: nat, n: nat,
                                        f: string -> string, tasks: nat -> multiset<string>)
    requires 0 < buckets && n <= buckets
    requires forall b :: 0 <= b < n ==> tasks(b) == LinesOf(KeysIn(pairs, hash, buckets, b), f)
    ensures Total(tasks, n) == LinesOf(KeysBelow(pairs, hash, buckets, n), f)
    decreases n
  {
    if n == 0 {
      KeysNoneAll(pairs, hash, buckets);
    } else {
      var below, here := KeysBelow(pairs, hash, buckets, n - 1), KeysIn(pairs, hash, buckets, n - 1);
      BucketsAddUp(pairs, hash, buckets, n - 1, f, tasks);
      KeysStep(pairs, hash, buckets, n);
      LinesUnion(below, here, f);
    }
  }

  lemma {:induction false} ValuesPermuted(pairs: seq<KeyValue>, key: string, value: string)
    ensures multiset(ValuesOf(pairs, key))[value] == multiset(pairs)[KeyValue(key, value)]
  {
    if pairs != [] {
      var rest := pairs[1..];
      ValuesPermuted(rest, key, value);
      assert pairs == [pairs[0]] + rest;
      assert multiset(pairs) == multiset{pairs[0]} + multiset(rest);
    }
  }

  lemma ValuesSame(pairs: seq<KeyValue>, sorted: seq<KeyValue>, key: string)
    requires multiset(sorted) == multiset(pairs)
    ensures multiset(ValuesOf(sorted, key)) == multiset(ValuesOf(pairs, key))
    ensures key in Keys(sorted) <==> key in Keys(pairs)
  {
    forall value ensures multiset(ValuesOf(sorted, key))[value] == multiset(ValuesOf(pairs, key))[value] {
      ValuesPermuted(sorted, key, value);
      ValuesPermuted(pairs, key, value);
    }
    KeyHasValues(sorted, key);
    KeyHasValues(pairs, key);
  }

  /** Rearranging the pairs changes neither the keys nor, for an order-insensitive reduce, the lines. */
  lemma LinesPermuted(pairs: seq<KeyValue>, sorted: seq<KeyValue>, reducef: Reduce)
    requires OrderInsensitive(reducef) && multiset(sorted) == multiset(pairs)
    ensures LinesOf(Keys(sorted), OutputOf(reducef, sorted)) == LinesOf(Keys(pairs), OutputOf(reducef, pairs))
  {
    forall key
      ensures key in Keys(sorted) <==> key in Keys(pairs)
      ensures OutputOf(reducef, sorted)(key) == OutputOf(reducef, pairs)(key)
    {
      ValuesSame(pairs, sorted, key);
    }
    assert Keys(sorted) == Keys(pairs);
    LinesSame(Keys(pairs), OutputOf(reducef, sorted), OutputOf(reducef, pairs));
  }

  lemma {:induction false} KeyHasValues(pairs: seq<KeyValue>, key: string)
    ensures key in Keys(pairs) <==> |multiset(ValuesOf(pairs, key))| > 0
  {
    if pairs != [] {
      KeyHasValues(pairs[1..], key);
    }
  }

  /** The reduce tasks together write the lines the sequential program writes, whatever the hash, for
      any number of buckets and any way of sorting. */
  lemma DistributedEqualsSequential(kvas: seq<seq<KeyValue>>, hash: string -> nat, buckets: nat,
                                    reducef: Reduce, sorted: seq<KeyValue>)
    requires buckets > 0 && AllClean(Concat(kvas)) && OrderInsensitive(reducef)
    requires multiset(sorted) == multiset(Concat(kvas))
    ensures DistributedLines(kvas, hash, buckets, buckets, reducef) == LinesOf(Keys(sorted), OutputOf(reducef, sorted))
  {
    var all, tasks := Concat(kvas), TasksOf(kvas, hash, buckets, reducef);
    forall b | 0 <= b < buckets ensures tasks(b) == LinesOf(KeysIn(all, hash, buckets, b), OutputOf(reducef, all)) {
      BucketLines(kvas, hash, buckets, b, reducef);
    }
    BucketsAddUp(all, hash, buckets, buckets, OutputOf(reducef, all), tasks);
    KeysNoneAll(all, hash, buckets);
    LinesPermuted(all, sorted, reducef);
  }

  // ----- the worker -----

  lemma {:induction false} PrintConcat(a: seq<KeyValue>, b: seq<KeyValue>)
    ensures Print(a + b) == Print(a) + Print(b)
  {
    if a == [] {
      assert a + b == b;
    } else {
      assert (a + b)[1..] == a[1..] + b;
      PrintConcat(a[1..], b);
    }
  }

  lemma {:induction false} ValuesConcat(a: seq<KeyValue>, b: seq<KeyValue>, key: string)
    ensures ValuesOf(a + b, key) == ValuesOf(a, key) + ValuesOf(b, key)
  {
    if a == [] {
      assert a + b == b;
    } else {
      assert (a + b)[1..] == a[1..] + b;
      ValuesConcat(a[1..], b, key);
    }
  }

  lemma {:induction false} KeysConcat(a: seq<KeyValue>, b: seq<KeyValue>)
    ensures Keys(a + b) == Keys(a) + Keys(b)
  {
    if a == [] {
      assert a + b == b;
    } else {
      assert (a + b)[1..] == a[1..] + b;
      KeysConcat(a[1..], b);
    }
  }

  lemma OneMoreLine(lines: seq<string>, done: set<string>, key: string, f: string -> string)
    requires multiset(lines) == LinesOf(done, f) && key !in done
    ensures multiset(lines + [Line(key, f(key))]) == LinesOf(done + {key}, f)
  {
    LinesPick(done + {key}, f, key);
    assert done + {key} - {key} == done;
  }

  method WritePairs(pairs: seq<KeyValue>) returns (text: string)
    ensures text == Print(pairs)
  {
    text := "";
    for i := 0 to |pairs|
      invariant text == Print(pairs[..i])
    {
      assert pairs[..i + 1] == pairs[..i] + [pairs[i]];
      PrintConcat(pairs[..i], [pairs[i]]);
      text := text + Line(pairs[i].key, pairs[i].value);
    }
    assert pairs[..|pairs|] == pairs;
  }

  /** The first loop of `runMapFunction`. */
  method Partition(kva: seq<KeyValue>, hash: string -> nat, buckets: nat) returns (fileToPairs: map<nat, seq<KeyValue>>)
    requires buckets > 0
    ensures forall b :: (if b in fileToPairs then fileToPairs[b] else []) == Bucket(kva, hash, buckets, b)
    ensures forall b :: b in fileToPairs ==> fileToPairs[b] != []
  {
    fileToPairs := map[];
    for i := 0 to |kva|
      invariant forall b :: (if b in fileToPairs then fileToPairs[b] else []) == Bucket(kva[..i], hash, buckets, b)
      invariant forall b :: b in fileToPairs ==> fileToPairs[b] != []
    {
      var bucket := hash(kva[i].key) % buckets;
      assert kva[..i + 1] == kva[..i] + [kva[i]];
      forall b ensures Bucket(kva[..i + 1], hash, buckets, b) == Bucket(kva[..i], hash, buckets, b) + (if b == bucket then [kva[i]] else []) {
        SelectedConcat(kva[..i], [kva[i]], key => Belongs(key, hash, buckets, b));
      }
      fileToPairs := fileToPairs[bucket := (if bucket in fileToPairs then fileToPairs[bucket] else []) + [kva[i]]];
    }
    assert kva[..|kva|] == kva;
  }

  lemma Inhabited(s: set<nat>)
    ensures s == {} || exists b :: b in s
  {
    if forall b :: b !in s { assert s == {}; }
  }

  /** `runMapFunction`: a file for each bucket that gets a pair, holding the bucket's pairs as text. */
  method RunMap(kva: seq<KeyValue>, hash: string -> nat, buckets: nat) returns (files: map<nat, string>)
    requires buckets > 0
    ensures forall b :: b in files <==> Bucket(kva, hash, buckets, b) != []
    ensures forall b :: b in files ==> files[b] == Print(Bucket(kva, hash, buckets, b))
  {
    var fileToPairs := Partition(kva, hash, buckets);
    files := map[];
    var todo := fileToPairs.Keys;
    while todo != {}
      invariant todo <= fileToPairs.Keys && files.Keys == fileToPairs.Keys - todo
      invariant forall b :: b in files ==> files[b] == Print(fileToPairs[b])
      decreases |todo|
    {
      Inhabited(todo);
      var bucket :| bucket in todo;
      var text := WritePairs(fileToPairs[bucket]);
      todo, files := todo - {bucket}, files[bucket := text];
    }
  }

  lemma AppendAssociative(a: Parsed, b: Parsed, c: Parsed)
    ensures Append(Append(a, b), c) == Append(a, Append(b, c))
  {
    if a.Pairs? && b.Pairs? && c.Pairs? {
      assert a.pairs + b.pairs + c.pairs == a.pairs + (b.pairs + c.pairs);
    }
  }

  /** The table a reduce task keeps, and the pairs it has read. */
  ghost predicate Grouped(kva: map<string, seq<string>>, pairs: seq<KeyValue>) {
    kva.Keys == Keys(pairs) && forall key :: key in kva ==> kva[key] == ValuesOf(pairs, key)
  }

  lemma ValuesMore(pairs: seq<KeyValue>, kv: KeyValue, key: string)
    ensures ValuesOf(pairs + [kv], key) == ValuesOf(pairs, key) + (if key == kv.key then [kv.value] else [])
    ensures key !in Keys(pairs) ==> ValuesOf(pairs, key) == []
  {
    ValuesConcat(pairs, [kv], key);
    KeyHasValues(pairs, key);
  }

  lemma KeysMore(pairs: seq<KeyValue>, kv: KeyValue)
    ensures Keys(pairs + [kv]) == Keys(pairs) + {kv.key}
  {
    KeysConcat(pairs, [kv]);
    assert Keys([kv]) == {kv.key};
  }

  lemma GroupMore(kva: map<string, seq<string>>, pairs: seq<KeyValue>, kv: KeyValue)
    requires Grouped(kva, pairs)
    ensures Grouped(kva[kv.key := (if kv.key in kva then kva[kv.key] else []) + [kv.value]], pairs + [kv])
  {
    var kva' := kva[kv.key := (if kv.key in kva then kva[kv.key] else []) + [kv.value]];
    KeysMore(pairs, kv);
    assert kva'.Keys == kva.Keys + {kv.key};
    forall key | key in kva' ensures kva'[key] == ValuesOf(pairs + [kv], key) { ValuesMore(pairs, kv, key); }
  }

  /** One file's lines, added to the table. */
  method ReadLines(lines: seq<string>, kva: map<string, seq<string>>, ghost pairs: seq<KeyValue>)
    returns (ok: bool, kva': map<string, seq<string>>)
    requires Grouped(kva, pairs)
    ensures ok <==> ParseLines(lines).Pairs?
    ensures ok ==> Grouped(kva', pairs + ParseLines(lines).pairs)
  {
    kva' := kva;
    ghost var read := [];
    assert pairs + read == pairs && lines[0..] == lines;
    for i := 0 to |lines|
      invariant Grouped(kva', pairs + read)
      invariant ParseLines(lines) == Append(Pairs(read), ParseLines(lines[i..]))
    {
      assert lines[i..][1..] == lines[i + 1..];
      AppendAssociative(Pairs(read), ParseLine(lines[i]), ParseLines(lines[i + 1..]));
      if lines[i] == "" {
        assert read + [] == read;
        continue;
      }
      var parts := Cut(lines[i]);
      if parts.One? { return false, kva'; }
      var key, value := parts.head, parts.tail;
      GroupMore(kva', pairs + read, KeyValue(key, value));
      assert pairs + read + [KeyValue(key, value)] == pairs + (read + [KeyValue(key, value)]);
      kva' := kva'[key := (if key in kva' then kva'[key] else []) + [value]];
      read := read + [KeyValue(key, value)];
    }
    assert read + [] == read;
    return true, kva';
  }

  /** What the reduce task finds in each map task's file; a missing file is passed over. */
  function Texts(files: seq<map<nat, string>>, b: nat): seq<string> {
    seq(|files|, t requires 0 <= t < |files| => if b in files[t] then files[t][b] else "")
  }

  lemma SetStep(all: set<string>, todo: set<string>, key: string)
    requires key in todo && todo <= all
    ensures all - (todo - {key}) == (all - todo) + {key}
  {
  }

  /** The last loop of `runReduceFunction`, over the table in any order. */
  method WriteOutputs(kva: map<string, seq<string>>, reducef: Reduce, ghost pairs: seq<KeyValue>)
    returns (lines: seq<string>)
    requires Grouped(kva, pairs)
    ensures multiset(lines) == LinesOf(Keys(pairs), OutputOf(reducef, pairs))
  {
    lines := [];
    var todo := kva.Keys;
    ghost var f, all := OutputOf(reducef, pairs), Keys(pairs);
    assert all - todo == {};
    while todo != {}
      invariant todo <= all && multiset(lines) == LinesOf(all - todo, f)
      decreases |todo|
    {
      var key :| key in todo;
      OneMoreLine(lines, all - todo, key, f);
      SetStep(all, todo, key);
      assert kva[key] == ValuesOf(pairs, key);
      lines := lines + [Line(key, reducef(key, kva[key]))];
      todo := todo - {key};
    }
    assert all - todo == all;
  }

  /** `runReduceFunction`: it panics exactly when a line has no space; otherwise it writes one line for
      each key it reads. */
  method RunReduce(files: seq<map<nat, string>>, b: nat, reducef: Reduce) returns (ok: bool, lines: seq<string>)
    ensures ok <==> ParseFiles(Texts(files, b)).Pairs?
    ensures ok ==> multiset(lines) == ReduceLines(ParseFiles(Texts(files, b)), reducef)
  {
    ghost var texts, pairs := Texts(files, b), [];
    var kva: map<string, seq<string>> := map[];
    lines := [];
    assert texts[0..] == texts;
    for index := 0 to |files|
      invariant Grouped(kva, pairs)
      invariant ParseFiles(texts) == Append(Pairs(pairs), ParseFiles(texts[index..]))
    {
      assert texts[index..][1..] == texts[index + 1..];
      AppendAssociative(Pairs(pairs), Parse(texts[index]), ParseFiles(texts[index + 1..]));
      if b !in files[index] {
        assert ParseLines([""][1..]) == Pairs([]) && pairs + [] == pairs;
        continue;
      }
      var more, kva' := ReadLines(Split(files[index][b]), kva, pairs);
      if !more { return false, []; }
      kva := kva';
      pairs := pairs + Parse(texts[index]).pairs;
    }
    assert pairs + [] == pairs;
    ok := true;
    lines := WriteOutputs(kva, reducef, pairs);
  }

  // ----- the sequential program -----

  /** Go's order on strings. */
  predicate Le(a: string, b: string) {
    a == "" || (b != "" && (a[0] < b[0] || (a[0] == b[0] && Le(a[1..], b[1..]))))
  }

  lemma {:induction false} LeAntisymmetric(a: string, b: string)
    requires Le(a, b) && Le(b, a)
    ensures a == b
  {
    if a != "" {
      LeAntisymmetric(a[1..], b[1..]);
      assert a == [a[0]] + a[1..] && b == [b[0]] + b[1..];
    }
  }

  predicate SortedByKey(pairs: seq<KeyValue>) {
    forall i, j :: 0 <= i < j < |pairs| ==> Le(pairs[i].key, pairs[j].key)
  }

  /** No key before position `n` comes back after it. */
  predicate Parted(pairs: seq<KeyValue>, n: nat) {
    forall p, q :: 0 <= p < n <= q < |pairs| ==> pairs[p].key != pairs[q].key
  }

  lemma NeverBack(pairs: seq<KeyValue>, i: nat, j: nat, q: nat)
    requires SortedByKey(pairs) && i < j <= q < |pairs| && pairs[j].key != pairs[i].key
    ensures pairs[q].key != pairs[i].key
  {
    if pairs[q].key == pairs[i].key && j < q {
      assert Le(pairs[i].key, pairs[j].key) && Le(pairs[j].key, pairs[q].key);
      LeAntisymmetric(pairs[j].key, pairs[i].key);
    }
  }

  lemma RunEnds(pairs: seq<KeyValue>, i: nat, j: nat)
    requires SortedByKey(pairs) && i < j <= |pairs| && Parted(pairs, i)
    requires forall k :: i <= k < j ==> pairs[k].key == pairs[i].key
    requires j < |pairs| ==> pairs[j].key != pairs[i].key
    ensures Parted(pairs, j)
  {
    forall q | j <= q < |pairs| ensures pairs[q].key != pairs[i].key { NeverBack(pairs, i, j, q); }
  }

  lemma ThreeParts(pairs: seq<KeyValue>, i: nat, j: nat)
    requires i <= j <= |pairs|
    ensures pairs == pairs[..i] + pairs[i..j] + pairs[j..] && pairs[..j] == pairs[..i] + pairs[i..j]
  {
  }

  predicate Only(pairs: seq<KeyValue>, key: string) {
    forall i :: 0 <= i < |pairs| ==> pairs[i].key == key
  }

  predicate Without(pairs: seq<KeyValue>, key: string) {
    forall i :: 0 <= i < |pairs| ==> pairs[i].key != key
  }

  /** A run of one key between such positions is all there is of the key. */
  lemma RunIsWhole(pairs: seq<KeyValue>, i: nat, j: nat)
    requires i < j <= |pairs| && Parted(pairs, i) && Parted(pairs, j)
    requires forall k :: i <= k < j ==> pairs[k].key == pairs[i].key
    ensures Without(pairs[..i], pairs[i].key) && Only(pairs[i..j], pairs[i].key) && Without(pairs[j..], pairs[i].key)
  {
  }

  lemma OnlyRun(before: seq<KeyValue>, run: seq<KeyValue>, rest: seq<KeyValue>, key: string)
    requires Without(before, key) && run != [] && Only(run, key) && Without(rest, key)
    ensures ValuesOf(run, key) == ValuesOf(before + run + rest, key)
    ensures Keys(before + run) == Keys(before) + {key} && key !in Keys(before)
  {
    NoValues(before, key);
    NoValues(rest, key);
    OneKey(run, key);
    ValuesConcat(before + run, rest, key);
    ValuesConcat(before, run, key);
    KeysConcat(before, run);
  }

  lemma {:induction false} OneKey(pairs: seq<KeyValue>, key: string)
    requires pairs != [] && Only(pairs, key)
    ensures Keys(pairs) == {key}
  {
    if |pairs| > 1 { OneKey(pairs[1..], key); }
  }

  lemma {:induction false} NoValues(pairs: seq<KeyValue>, key: string)
    requires Without(pairs, key)
    ensures ValuesOf(pairs, key) == [] && key !in Keys(pairs)
  {
    if pairs != [] { NoValues(pairs[1..], key); }
  }

  /** The grouping loops of `mrsequential`. */
  method GroupAndReduce(intermediate: seq<KeyValue>, reducef: Reduce) returns (lines: seq<string>)
    requires SortedByKey(intermediate)
    ensures multiset(lines) == LinesOf(Keys(intermediate), OutputOf(reducef, intermediate))
  {
    lines := [];
    ghost var f := OutputOf(reducef, intermediate);
    var i := 0;
    while i < |intermediate|
      invariant 0 <= i <= |intermediate| && Parted(intermediate, i)
      invariant multiset(lines) == LinesOf(Keys(intermediate[..i]), f)
    {
      var j := i + 1;
      while j < |intermediate| && intermediate[j].key == intermediate[i].key
        invariant i < j <= |intermediate|
        invariant forall k :: i <= k < j ==> intermediate[k].key == intermediate[i].key
      {
        j := j + 1;
      }
      var values := CollectValues(intermediate, i, j);
      RunEnds(intermediate, i, j);
      RunIsWhole(intermediate, i, j);
      OnlyRun(intermediate[..i], intermediate[i..j], intermediate[j..], intermediate[i].key);
      ThreeParts(intermediate, i, j);
      OneMoreLine(lines, Keys(intermediate[..i]), intermediate[i].key, f);
      lines := lines + [Line(intermediate[i].key, reducef(intermediate[i].key, values))];
      i := j;
    }
    assert intermediate[..i] == intermediate;
  }

  method CollectValues(intermediate: seq<KeyValue>, i: nat, j: nat) returns (values: seq<string>)
    requires i < j <= |intermediate| && forall k :: i <= k < j ==> intermediate[k].key == intermediate[i].key
    ensures values == ValuesOf(intermediate[i..j], intermediate[i].key)
  {
    values := [];
    for k := i to j
      invariant values == ValuesOf(intermediate[i..k], intermediate[i].key)
    {
      assert intermediate[i..k + 1] == intermediate[i..k] + [intermediate[k]];
      ValuesConcat(intermediate[i..k], [intermediate[k]], intermediate[i].key);
      values := values + [intermediate[k].value];
    }
  }

  lemma {:induction false} ConcatMore(kvas: seq<seq<KeyValue>>, kva: seq<KeyValue>)
    ensures Concat(kvas + [kva]) == Concat(kvas) + kva
  {
    if kvas == [] {
      assert [kva][1..] == [] && kva + [] == kva;
    } else {
      assert (kvas + [kva])[1..] == kvas[1..] + [kva];
      ConcatMore(kvas[1..], kva);
    }
  }

  /** What the maps produce, input by input. */
  function Mapped(mapf: (string, string) -> seq<KeyValue>, inputs: seq<(string, string)>): seq<seq<KeyValue>> {
    seq(|inputs|, i requires 0 <= i < |inputs| => mapf(inputs[i].0, inputs[i].1))
  }

  /** `mrsequential`, with any sort by key. */
  method Sequential(mapf: (string, string) -> seq<KeyValue>, reducef: Reduce, inputs: seq<(string, string)>,
                    sort: seq<KeyValue> -> seq<KeyValue>)
    returns (lines: seq<string>)
    requires forall s :: SortedByKey(sort(s)) && multiset(sort(s)) == multiset(s)
    ensures var sorted := sort(Concat(Mapped(mapf, inputs)));
            multiset(lines) == LinesOf(Keys(sorted), OutputOf(reducef, sorted))
  {
    var intermediate := [];
    ghost var kvas := Mapped(mapf, inputs);
    for i := 0 to |inputs|
      invariant intermediate == Concat(kvas[..i])
    {
      assert kvas[..i + 1] == kvas[..i] + [kvas[i]];
      ConcatMore(kvas[..i], kvas[i]);
      intermediate := intermediate + mapf(inputs[i].0, inputs[i].1);
    }
    assert kvas[..|inputs|] == kvas;
    intermediate := sort(intermediate);
    lines := GroupAndReduce(intermediate, reducef);
  }

  // ----- both programs -----

  /** Map task `t` left its pairs for reduce task `b`. */
  predicate WrittenAt(kvas: seq<seq<KeyValue>>, hash: string -> nat, buckets: nat, files: seq<map<nat, string>>, t: nat, b: nat)
    requires buckets > 0 && t < |files| <= |kvas|
  {
    var pairs := Bucket(kvas[t], hash, buckets, b);
    (b in files[t] <==> pairs != []) && (b in files[t] ==> files[t][b] == Print(pairs))
  }

  ghost predicate Written(kvas: seq<seq<KeyValue>>, hash: string -> nat, buckets: nat, files: seq<map<nat, string>>)
    requires buckets > 0 && |files| <= |kvas|
  {
    forall t, b {:trigger WrittenAt(kvas, hash, buckets, files, t, b)} ::
      0 <= t < |files| && 0 <= b ==> WrittenAt(kvas, hash, buckets, files, t, b)
  }

  lemma WrittenMore(kvas: seq<seq<KeyValue>>, hash: string -> nat, buckets: nat, files: seq<map<nat, string>>, file: map<nat, string>)
    requires buckets > 0 && |files| < |kvas| && Written(kvas, hash, buckets, files)
    requires forall b :: b in file <==> Bucket(kvas[|files|], hash, buckets, b) != []
    requires forall b :: b in file ==> file[b] == Print(Bucket(kvas[|files|], hash, buckets, b))
    ensures Written(kvas, hash, buckets, files + [file])
  {
    var files' := files + [file];
    forall t, b | 0 <= t < |files'| && 0 <= b ensures WrittenAt(kvas, hash, buckets, files', t, b) {
      if t < |files| { assert WrittenAt(kvas, hash, buckets, files, t, b); }
    }
  }

  /** A reduce task finds exactly what the map tasks printed for it. */
  lemma SameTexts(kvas: seq<seq<KeyValue>>, hash: string -> nat, buckets: nat, files: seq<map<nat, string>>, b: nat)
    requires buckets > 0 && |files| == |kvas| && Written(kvas, hash, buckets, files)
    ensures Texts(files, b) == Files(kvas, hash, buckets, b)
  {
    forall t | 0 <= t < |files| ensures Texts(files, b)[t] == Files(kvas, hash, buckets, b)[t] {
      assert WrittenAt(kvas, hash, buckets, files, t, b);
    }
  }

  ghost predicate SameAt(kvas: seq<seq<KeyValue>>, hash: string -> nat, buckets: nat, files: seq<map<nat, string>>,
                         b: nat, reducef: Reduce)
    requires buckets > 0
  {
    LinesFrom(files, b, reducef) == TaskLines(kvas, hash, buckets, b, reducef)
  }

  lemma SameLines(kvas: seq<seq<KeyValue>>, hash: string -> nat, buckets: nat, files: seq<map<nat, string>>, b: nat,
                  reducef: Reduce)
    requires buckets > 0 && |files| == |kvas| && Written(kvas, hash, buckets, files)
    ensures SameAt(kvas, hash, buckets, files, b, reducef)
  {
    SameTexts(kvas, hash, buckets, files, b);
  }

  lemma CleanParses(kvas: seq<seq<KeyValue>>, hash: string -> nat, buckets: nat, files: seq<map<nat, string>>, b: nat)
    requires buckets > 0 && |files| == |kvas| && Written(kvas, hash, buckets, files) && AllClean(Concat(kvas))
    ensures Parses(files, b)
  {
    SameTexts(kvas, hash, buckets, files, b);
    ShuffleIsExact(kvas, hash, buckets, b);
  }

  /** Whether reduce task `b` can parse its files, and what it writes. */
  predicate Parses(files: seq<map<nat, string>>, b: nat) {
    ParseFiles(Texts(files, b)).Pairs?
  }

  ghost function LinesFrom(files: seq<map<nat, string>>, b: nat, reducef: Reduce): multiset<string> {
    ReduceLines(ParseFiles(Texts(files, b)), reducef)
  }

  /** The first `n` reduce tasks: that all can parse, and what they write together. */
  predicate AllParse(files: seq<map<nat, string>>, n: nat) {
    forall b {:trigger Parses(files, b)} :: 0 <= b < n ==> Parses(files, b)
  }

  ghost function AllLines(files: seq<map<nat, string>>, n: nat, reducef: Reduce): multiset<string> {
    if n == 0 then multiset{} else AllLines(files, n - 1, reducef) + LinesFrom(files, n - 1, reducef)
  }

  /** What the reduce tasks write, one file after the other. */
  function Joined(outs: seq<seq<string>>): seq<string> {
    if outs == [] then [] else Joined(outs[..|outs| - 1]) + outs[|outs| - 1]
  }

  /** `lines` is what reduce task `b` writes. */
  ghost predicate Writes(files: seq<map<nat, string>>, b: nat, reducef: Reduce, lines: seq<string>) {
    Parses(files, b) && multiset(lines) == LinesFrom(files, b, reducef)
  }

  ghost predicate AllWritten(files: seq<map<nat, string>>, reducef: Reduce, outs: seq<seq<string>>) {
    forall b {:trigger outs[b]} :: 0 <= b < |outs| ==> Writes(files, b, reducef, outs[b])
  }

  lemma {:induction false} JoinedLines(files: seq<map<nat, string>>, reducef: Reduce, outs: seq<seq<string>>)
    requires AllWritten(files, reducef, outs)
    ensures AllParse(files, |outs|) && multiset(Joined(outs)) == AllLines(files, |outs|, reducef)
    decreases |outs|
  {
    if outs != [] {
      var n := |outs| - 1;
      JoinedLines(files, reducef, outs[..n]);
      assert Writes(files, n, reducef, outs[n]);
      forall b | 0 <= b < |outs| ensures Parses(files, b) { assert Writes(files, b, reducef, outs[b]); }
    }
  }

  lemma WrittenOne(files: seq<map<nat, string>>, reducef: Reduce, outs: seq<seq<string>>, lines: seq<string>)
    requires AllWritten(files, reducef, outs) && Writes(files, |outs|, reducef, lines)
    ensures AllWritten(files, reducef, outs + [lines])
  {
  }

  /** Every reduce task, each writing its own file. */
  method ReduceAll(files: seq<map<nat, string>>, buckets: nat, reducef: Reduce) returns (ok: bool, outs: seq<seq<string>>)
    ensures ok <==> AllParse(files, buckets)
    ensures ok ==> |outs| == buckets && AllWritten(files, reducef, outs)
  {
    outs := [];
    for b := 0 to buckets
      invariant |outs| == b && AllWritten(files, reducef, outs)
    {
      var fine, lines := RunReduce(files, b, reducef);
      if !fine {
        assert !Parses(files, b);
        return false, [];
      }
      WrittenOne(files, reducef, outs, lines);
      outs := outs + [lines];
    }
    ok := true;
    JoinedLines(files, reducef, outs);
  }

  /** On the files the map tasks wrote, that is what the buckets give. */
  lemma AllLinesDistributed(kvas: seq<seq<KeyValue>>, hash: string -> nat, buckets: nat, files: seq<map<nat, string>>,
                            n: nat, reducef: Reduce)
    requires buckets > 0 && |files| == |kvas| && Written(kvas, hash, buckets, files)
    ensures AllLines(files, n, reducef) == DistributedLines(kvas, hash, buckets, n, reducef)
  {
    var tasks := TasksOf(kvas, hash, buckets, reducef);
    forall b | 0 <= b < n ensures LinesFrom(files, b, reducef) == tasks(b) { SameLines(kvas, hash, buckets, files, b, reducef); }
    AllLinesTotal(files, n, reducef, tasks);
  }

  lemma {:induction false} AllLinesTotal(files: seq<map<nat, string>>, n: nat, reducef: Reduce, tasks: nat -> multiset<string>)
    requires forall b :: 0 <= b < n ==> LinesFrom(files, b, reducef) == tasks(b)
    ensures AllLines(files, n, reducef) == Total(tasks, n)
    decreases n
  {
    if n > 0 { AllLinesTotal(files, n - 1, reducef, tasks); }
  }

  /** A worker that is handed every map task and then every reduce task. */
  method Distributed(mapf: (string, string) -> seq<KeyValue>, reducef: Reduce, inputs: seq<(string, string)>,
                     hash: string -> nat, buckets: nat)
    returns (ok: bool, lines: seq<string>, files: seq<map<nat, string>>)
    requires buckets > 0
    ensures |files| == |inputs| && Written(Mapped(mapf, inputs), hash, buckets, files)
    ensures ok <==> AllParse(files, buckets)
    ensures ok ==> multiset(lines) == DistributedLines(Mapped(mapf, inputs), hash, buckets, buckets, reducef)
  {
    ghost var kvas := Mapped(mapf, inputs);
    files := [];
    for t := 0 to |inputs|
      invariant |files| == t && Written(kvas, hash, buckets, files)
    {
      var file := RunMap(mapf(inputs[t].0, inputs[t].1), hash, buckets);
      WrittenMore(kvas, hash, buckets, files, file);
      files := files + [file];
    }
    var outs;
    ok, outs := ReduceAll(files, buckets, reducef);
    lines := Joined(outs);
    if ok {
      JoinedLines(files, reducef, outs);
      AllLinesDistributed(kvas, hash, buckets, files, buckets, reducef);
    }
  }

  /** Clean pairs panic no reduce task. */
  lemma CleanNeverPanics(kvas: seq<seq<KeyValue>>, hash: string -> nat, buckets: nat,
                         files: seq<map<nat, string>>, n: nat)
    requires buckets > 0 && |files| == |kvas| && Written(kvas, hash, buckets, files) && AllClean(Concat(kvas))
    ensures AllParse(files, n)
  {
    forall b | 0 <= b < n ensures Parses(files, b) { CleanParses(kvas, hash, buckets, files, b); }
  }

  /** The distributed and the sequential program on the same inputs: nothing panics and both write the
      same multiset of lines. */
  method BothPrograms(mapf: (string, string) -> seq<KeyValue>, reducef: Reduce, inputs: seq<(string, string)>,
                      hash: string -> nat, buckets: nat, sort: seq<KeyValue> -> seq<KeyValue>)
    returns (ok: bool, distributed: seq<string>, sequential: seq<string>)
    requires buckets > 0 && AllClean(Concat(Mapped(mapf, inputs))) && OrderInsensitive(reducef)
    requires forall s :: SortedByKey(sort(s)) && multiset(sort(s)) == multiset(s)
    ensures ok && multiset(distributed) == multiset(sequential)
  {
    ghost var kvas := Mapped(mapf, inputs);
    var files;
    ok, distributed, files := Distributed(mapf, reducef, inputs, hash, buckets);
    CleanNeverPanics(kvas, hash, buckets, files, buckets);
    sequential := Sequential(mapf, reducef, inputs, sort);
    DistributedEqualsSequential(kvas, hash, buckets, reducef, sort(Concat(kvas)));
  }
}
