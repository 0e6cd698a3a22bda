/** The managed key-value store (`@vercel/kv`, a Redis client) that every route handler
    reads and writes. A key holds either a string value, written by `kv.set` and read by
    `kv.get` (the client serialises the value as JSON), or a hash, written by `kv.hset`
    and read by `kv.hgetall`. Redis refuses a command against a key of the other kind
    (WRONGTYPE) and the client raises it as an exception; `kv.set` and `kv.del` accept
    any key. */
module KvStore {
  import opened Wrappers
  import opened JsValues

  datatype Entry = Str(value: Json) | Hash(fields: map<string, Json>)

  type Snapshot = map<string, Entry>

  /** The answer to a read: nothing under the key, a value of the requested kind, or
      the WRONGTYPE exception. */
  datatype Read<T> = Missing | Found(value: T) | WrongType

  /** One completed write, as the store's log records it. */
  datatype Write =
    | SetValue(key: string, value: Json)
    | HashSet(key: string, fields: map<string, Json>)
    | Delete(key: string)
  {
    function Key(): string {
      match this
      case SetValue(k, _) => k
      case HashSet(k, _) => k
      case Delete(k) => k
    }
  }

  /** `kv.get(key)`. */
  function Get(m: Snapshot, key: string): (r: Read<Json>)
    ensures r.Missing? <==> key !in m
    ensures r.Found? <==> key in m && m[key].Str?
    ensures r.Found? ==> m[key] == Str(r.value)
  {
    if key !in m then Missing
    else match m[key]
      case Str(v) => Found(v)
      case Hash(_) => WrongType
  }

  /** `kv.hgetall(key)`. */
  function HGetAll(m: Snapshot, key: string): (r: Read<map<string, Json>>)
    ensures r.Missing? <==> key !in m
    ensures r.Found? <==> key in m && m[key].Hash?
    ensures r.Found? ==> m[key] == Hash(r.value)
  {
    if key !in m then Missing
    else match m[key]
      case Hash(f) => Found(f)
      case Str(_) => WrongType
  }

  /** The value a read hands to the handler: `null` when the key is missing. */
  function ValueOf(r: Read<Json>): (v: Json)
    requires !r.WrongType?
    ensures r.Missing? ==> v == JNull
    ensures r.Found? ==> v == r.value
  {
    if r.Found? then r.value else JNull
  }

  /** The store after one write. `kv.hset` merges its fields into an existing hash. */
  function Step(m: Snapshot, w: Write): Snapshot {
    match w
    case SetValue(k, v) => m[k := Str(v)]
    case HashSet(k, f) => m[k := Hash(if k in m && m[k].Hash? then m[k].fields + f else f)]
    case Delete(k) => m - {k}
  }

  /** The store after a sequence of writes, performed in order. */
  function Apply(m: Snapshot, ws: seq<Write>): Snapshot
    decreases |ws|
  {
    if ws == [] then m else Step(Apply(m, ws[..|ws| - 1]), ws[|ws| - 1])
  }

  lemma ApplyAppend(m: Snapshot, ws: seq<Write>, w: Write)
    ensures Apply(m, ws + [w]) == Step(Apply(m, ws), w)
  {
    assert (ws + [w])[..|ws|] == ws;
  }

  /** One write applied to a snapshot. */
  lemma ApplyOne(m: Snapshot, w: Write)
    ensures Apply(m, [w]) == Step(m, w)
  {
    ApplyAppend(m, [], w);
    assert [] + [w] == [w];
  }

  /** Two writes applied to a snapshot, in order. */
  lemma ApplyTwo(m: Snapshot, w0: Write, w1: Write)
    ensures Apply(m, [w0, w1]) == Step(Step(m, w0), w1)
  {
    ApplyOne(m, w0);
    ApplyAppend(m, [w0], w1);
    assert [w0] + [w1] == [w0, w1];
  }

  /** Three writes applied to a snapshot, in order. */
  lemma ApplyThree(m: Snapshot, w0: Write, w1: Write, w2: Write)
    ensures Apply(m, [w0, w1, w2]) == Step(Step(Step(m, w0), w1), w2)
  {
    ApplyOne(m, w0);
    ApplyAppend(m, [w0], w1);
    assert [w0] + [w1] == [w0, w1];
    ApplyAppend(m, [w0, w1], w2);
    assert [w0, w1] + [w2] == [w0, w1, w2];
  }

  /** Only the keys a sequence of writes names can change: every other key is present
      afterwards exactly when it was before, with the same entry. */
  lemma {:induction false} ApplyOnlyTouchesWrittenKeys(m: Snapshot, ws: seq<Write>, k: string)
    requires forall i :: 0 <= i < |ws| ==> ws[i].Key() != k
    ensures k in Apply(m, ws) <==> k in m
    ensures k in m ==> Apply(m, ws)[k] == m[k]
    decreases |ws|
  {
    if ws != [] {
      ApplyOnlyTouchesWrittenKeys(m, ws[..|ws| - 1], k);
    }
  }

  /** The store as the handlers use it. `entries` is its content; the ghost `log` lists
      every write that has completed, oldest first, so that contracts can speak of the
      order of writes and of rejected requests writing nothing at all. */
  class Store {
    var entries: Snapshot
    ghost var log: seq<Write>

    constructor (initial: Snapshot)
      ensures entries == initial && log == []
    {
      entries := initial;
      log := [];
    }

    /** `kv.set(key, value)` replaces whatever the key held. */
    method Set(key: string, value: Json)
      modifies this
      ensures entries == old(entries)[key := Str(value)]
      ensures log == old(log) + [SetValue(key, value)]
    {
      entries := entries[key := Str(value)];
      log := log + [SetValue(key, value)];
    }

    /** `kv.hset(key, fields)`: raises (ok = false, nothing written) on a string key. */
    method HSet(key: string, fields: map<string, Json>) returns (ok: bool)
      modifies this
      ensures ok <==> !(key in old(entries) && old(entries)[key].Str?)
      ensures ok ==> entries == Step(old(entries), HashSet(key, fields))
                     && log == old(log) + [HashSet(key, fields)]
      ensures !ok ==> entries == old(entries) && log == old(log)
    {
      if key in entries && entries[key].Str? {
        ok := false;
      } else {
        ok := true;
        var merged := if key in entries && entries[key].Hash? then entries[key].fields + fields else fields;
        entries := entries[key := Hash(merged)];
        log := log + [HashSet(key, fields)];
      }
    }

    /** `kv.del(key)`. */
    method Del(key: string)
      modifies this
      ensures entries == old(entries) - {key}
      ensures log == old(log) + [Delete(key)]
    {
      entries := entries - {key};
      log := log + [Delete(key)];
    }
  }
}
