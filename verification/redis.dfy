/** The Redis database every worker shares: plain string keys (`SET`/`GET`)
    and hash keys (`HSET`/`HGETALL`). `HSET` updates only the fields it is
    given; a pipeline's queued `SET`s take effect together when it executes. */
module Redis {
  import opened Py

  /** One value written under a key: a `SET` of a string key, or one field
      of an `HSET`. */
  datatype Write = Write(key: string, value: string)

  /** The keys a batch of commands writes. */
  function WrittenKeys(cmds: seq<Write>): (keys: set<string>)
    ensures forall i :: 0 <= i < |cmds| ==> cmds[i].key in keys
    ensures forall k :: k in keys ==> exists i :: 0 <= i < |cmds| && cmds[i].key == k
  {
    if cmds == [] then {} else {cmds[0].key} + WrittenKeys(cmds[1..])
  }

  /** The string keyspace after the commands run in order. */
  function ApplySets(m: map<string, string>, cmds: seq<Write>): map<string, string>
    decreases |cmds|
  {
    if cmds == [] then m else ApplySets(m[cmds[0].key := cmds[0].value], cmds[1..])
  }

  /** A batch adds exactly the keys it writes, leaves every other key alone,
      and a key written last by the batch's final command holds that value. */
  lemma {:induction false} ApplySetsFrame(m: map<string, string>, cmds: seq<Write>)
    ensures ApplySets(m, cmds).Keys == m.Keys + WrittenKeys(cmds)
    ensures forall k :: k in m && k !in WrittenKeys(cmds) ==> ApplySets(m, cmds)[k] == m[k]
    ensures cmds != [] ==> ApplySets(m, cmds)[cmds[|cmds| - 1].key] == cmds[|cmds| - 1].value
    decreases |cmds|
  {
    if cmds != [] {
      var m' := m[cmds[0].key := cmds[0].value];
      ApplySetsFrame(m', cmds[1..]);
      if |cmds| > 1 {
        assert cmds[1..][|cmds[1..]| - 1] == cmds[|cmds| - 1];
      }
    }
  }

  /** Running two batches one after the other is running their concatenation. */
  lemma {:induction false} ApplySetsAppend(m: map<string, string>, a: seq<Write>, b: seq<Write>)
    ensures ApplySets(m, a + b) == ApplySets(ApplySets(m, a), b)
    decreases |a|
  {
    if a != [] {
      assert (a + b)[0] == a[0] && (a + b)[1..] == a[1..] + b;
      ApplySetsAppend(m[a[0].key := a[0].value], a[1..], b);
    } else {
      assert a + b == b;
    }
  }

  class Store {
    var strings: map<string, string>
    var hashes: map<string, map<string, string>>

    /** A freshly flushed database. */
    constructor ()
      ensures strings == map[] && hashes == map[]
    {
      strings := map[];
      hashes := map[];
    }

    /** `GET key`, `None` when absent. */
    function Get(key: string): (r: Option<string>)
      reads this
      ensures r.Some? <==> key in strings
      ensures r.Some? ==> r.value == strings[key]
    {
      if key in strings then Some(strings[key]) else None
    }

    /** `HGETALL key`, the empty mapping when absent. */
    function HGetAll(key: string): (r: map<string, string>)
      reads this
      ensures key !in hashes ==> r == map[]
      ensures key in hashes ==> r == hashes[key]
    {
      if key in hashes then hashes[key] else map[]
    }

    /** `SET key value` */
    method Set(key: string, value: string)
      modifies this
      ensures strings == old(strings)[key := value]
      ensures hashes == old(hashes)
    {
      strings := strings[key := value];
    }

    /** `HSET key mapping`: the given fields are replaced or added, the
        hash's other fields stay. */
    method HSet(key: string, mapping: map<string, string>)
      modifies this
      ensures hashes == old(hashes)[key := old(HGetAll(key)) + mapping]
      ensures strings == old(strings)
    {
      hashes := hashes[key := HGetAll(key) + mapping];
    }

    /** `HSET key field value` */
    method HSetField(key: string, field: string, value: string)
      modifies this
      ensures hashes == old(hashes)[key := old(HGetAll(key))[field := value]]
      ensures strings == old(strings)
    {
      hashes := hashes[key := HGetAll(key)[field := value]];
    }

    /** `pipeline.execute()` over queued `SET`s: one atomic step, so no reader
        sees some of the batch without the rest. */
    method Execute(cmds: seq<Write>)
      modifies this
      ensures strings == ApplySets(old(strings), cmds)
      ensures hashes == old(hashes)
    {
      strings := ApplySets(strings, cmds);
    }
  }
}
