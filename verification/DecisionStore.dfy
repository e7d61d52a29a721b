/**
 The in-memory store through which the rebalance engine tells the placement server where
 the next pod of a workload should go: one entry per workload, consumed by the first
 lookup, dead after its time to live.
 */
module DecisionStore {
  import opened Profile

  const DEFAULT_TTL := 60

  datatype Hint = Hint(podName: string, action: Action, targetNode: string, reason: string, decisionId: nat)
  datatype Entry = Entry(hint: Hint, expiresAt: int)

  datatype Op =
    | Put(key: string, hint: Hint, at: int)
    | Lookup(key: string, at: int)
    | Delete(key: string)

  function WorkloadKey(namespace: string, name: string): string {
    namespace + "/" + name
  }

  /** Two workloads share a key only when they are the same, as names carry no slash. */
  lemma {:induction false} WorkloadKeyIsInjective(ns1: string, n1: string, ns2: string, n2: string)
    requires '/' !in ns1 && '/' !in ns2
    ensures WorkloadKey(ns1, n1) == WorkloadKey(ns2, n2) <==> ns1 == ns2 && n1 == n2
  {
    var k1, k2 := WorkloadKey(ns1, n1), WorkloadKey(ns2, n2);
    if k1 == k2 {
      assert k1[|ns1|] == '/' && k2[|ns2|] == '/';
      assert forall i :: 0 <= i < |ns1| ==> k1[i] == ns1[i] && ns1[i] in ns1;
      assert forall i :: 0 <= i < |ns2| ==> k2[i] == ns2[i] && ns2[i] in ns2;
      assert ns1 == k1[..|ns1|] && ns2 == k2[..|ns2|];
      assert n1 == k1[|ns1| + 1..] && n2 == k2[|ns2| + 1..];
    }
  }

  /** The put for `key` not since looked up, deleted or overwritten. */
  function PendingPut(ops: seq<Op>, key: string): (r: Option<Op>)
    ensures r.Some? ==> r.value in ops && r.value.Put? && r.value.key == key
  {
    if ops == [] then None
    else
      var last := ops[|ops| - 1];
      if last.key != key then PendingPut(ops[..|ops| - 1], key)
      else if last.Put? then Some(last) else None
  }

  function EntryOf(put: Op, ttl: int): Entry
    requires put.Put?
  {
    Entry(put.hint, put.at + ttl)
  }

  /** What a lookup at `at` answers after `ops`: the pending put while it is alive. */
  function Answer(ops: seq<Op>, ttl: int, key: string, at: int): Option<Entry> {
    var put := PendingPut(ops, key);
    if put.Some? && at <= put.value.at + ttl then Some(EntryOf(put.value, ttl)) else None
  }

  /** The put at `i` is of this key, no operation on the key follows it, and at `at` it is at most
      `ttl` old; `e` is what it stored. */
  ghost predicate Alive(ops: seq<Op>, ttl: int, key: string, at: int, e: Entry, i: nat) {
    && i < |ops| && ops[i].Put? && ops[i].key == key
    && (forall j :: i < j < |ops| ==> ops[j].key != key)
    && ops[i].at + ttl >= at
    && e == Entry(ops[i].hint, ops[i].at + ttl)
  }

  /** A lookup is answered with an entry if and only if that is alive. */
  lemma {:induction false} AnswerIffAlive(ops: seq<Op>, ttl: int, key: string, at: int, e: Entry)
    ensures Answer(ops, ttl, key, at) == Some(e) <==> exists i: nat :: Alive(ops, ttl, key, at, e, i)
  {
    if ops != [] {
      var front, last := ops[..|ops| - 1], ops[|ops| - 1];
      AnswerIffAlive(front, ttl, key, at, e);
      if last.key != key {
        assert forall i: nat :: Alive(front, ttl, key, at, e, i) <==> Alive(ops, ttl, key, at, e, i);
      } else {
        assert forall i: nat :: Alive(ops, ttl, key, at, e, i) ==> i == |ops| - 1;
        assert last.Put? && last.at + ttl >= at && e == EntryOf(last, ttl) ==> Alive(ops, ttl, key, at, e, |ops| - 1);
      }
    }
  }

  /** The map is the history: one entry for every key with a put pending. */
  ghost predicate Mirrors(entries: map<string, Entry>, ops: seq<Op>, ttl: int) {
    forall k ::
      && (k in entries <==> PendingPut(ops, k).Some?)
      && (k in entries ==> entries[k] == EntryOf(PendingPut(ops, k).value, ttl))
  }

  class DecisionStore {
    const ttl: int
    var entries: map<string, Entry>
    ghost var ops: seq<Op>

    ghost predicate Valid()
      reads this
    {
      ttl > 0 && Mirrors(entries, ops, ttl)
    }

    constructor (ttl: int)
      ensures Valid() && ops == [] && entries == map[]
      ensures this.ttl == if ttl <= 0 then DEFAULT_TTL else ttl
    {
      this.ttl := if ttl <= 0 then DEFAULT_TTL else ttl;
      this.entries := map[];
      this.ops := [];
    }

    method Put(key: string, hint: Hint, now: int)
      requires Valid()
      modifies this
      ensures Valid() && ops == old(ops) + [Op.Put(key, hint, now)]
      ensures entries == old(entries)[key := Entry(hint, now + ttl)]
    {
      Extend(ops, Op.Put(key, hint, now));
      entries := entries[key := Entry(hint, now + ttl)];
      ops := ops + [Op.Put(key, hint, now)];
    }

    method Lookup(key: string, now: int) returns (r: Option<Entry>)
      requires Valid()
      modifies this
      ensures Valid() && ops == old(ops) + [Op.Lookup(key, now)]
      ensures entries == old(entries) - {key}
      ensures r == Answer(old(ops), ttl, key, now)
      ensures forall e :: r == Some(e) <==> exists i: nat :: Alive(old(ops), ttl, key, now, e, i)
    {
      forall e ensures Answer(ops, ttl, key, now) == Some(e) <==> exists i: nat :: Alive(ops, ttl, key, now, e, i) {
        AnswerIffAlive(ops, ttl, key, now, e);
      }
      Extend(ops, Op.Lookup(key, now));
      ops := ops + [Op.Lookup(key, now)];
      if key !in entries {
        assert entries - {key} == entries;
        return None;
      }
      var entry := entries[key];
      entries := entries - {key};
      return if now > entry.expiresAt then None else Some(entry);
    }

    method Delete(key: string)
      requires Valid()
      modifies this
      ensures Valid() && ops == old(ops) + [Op.Delete(key)]
      ensures entries == old(entries) - {key}
    {
      Extend(ops, Op.Delete(key));
      entries := entries - {key};
      ops := ops + [Op.Delete(key)];
    }
  }

  /** An operation leaves what is pending under every other key as it is. */
  lemma Extend(ops: seq<Op>, op: Op)
    ensures forall k :: PendingPut(ops + [op], k) == if k != op.key then PendingPut(ops, k) else if op.Put? then Some(op) else None
  {
    assert (ops + [op])[..|ops|] == ops;
  }

  function Keys(ops: seq<Op>): (r: set<string>)
    ensures forall k :: k in r <==> PendingPut(ops, k).Some?
  {
    if ops == [] then {}
    else
      var last := ops[|ops| - 1];
      if last.Put? then Keys(ops[..|ops| - 1]) + {last.key} else Keys(ops[..|ops| - 1]) - {last.key}
  }

  datatype Fates = Fates(puts: nat, hits: nat, expired: nat, overwritten: nat, deleted: nat)

  /** What became of every put, operation by operation. */
  function Tally(ops: seq<Op>, ttl: int): Fates {
    if ops == [] then Fates(0, 0, 0, 0, 0)
    else
      var front, last := ops[..|ops| - 1], ops[|ops| - 1];
      var t, pending := Tally(front, ttl), PendingPut(front, last.key).Some?;
      match last
      case Put(_, _, _) => t.(puts := t.puts + 1, overwritten := t.overwritten + if pending then 1 else 0)
      case Delete(_) => t.(deleted := t.deleted + if pending then 1 else 0)
      case Lookup(key, at) =>
        if !pending then t
        else if Answer(front, ttl, key, at).Some? then t.(hits := t.hits + 1)
        else t.(expired := t.expired + 1)
  }

  /** Conservation: a put is hit, found expired, overwritten, deleted, or still there. */
  lemma {:induction false} EveryPutIsAccountedFor(ops: seq<Op>, ttl: int)
    ensures var t := Tally(ops, ttl);
            t.puts == t.hits + t.expired + t.overwritten + t.deleted + |Keys(ops)|
  {
    if ops != [] {
      var front, last := ops[..|ops| - 1], ops[|ops| - 1];
      EveryPutIsAccountedFor(front, ttl);
      OneKey(Keys(front), last.key);
      hide PendingPut, Answer;
    }
  }

  lemma OneKey(keys: set<string>, key: string)
    ensures |keys + {key}| == |keys| + if key in keys then 0 else 1
    ensures |keys - {key}| == |keys| - if key in keys then 1 else 0
  {
    if key in keys {
      assert keys + {key} == keys;
      assert keys == (keys - {key}) + {key};
    } else {
      assert keys - {key} == keys;
    }
  }

  /** The store holds as many entries as puts are unaccounted for. */
  lemma LiveEntries(store: DecisionStore)
    requires store.Valid()
    ensures store.entries.Keys == Keys(store.ops)
  {
  }

  /** A lookup spends the put: whatever follows, no later lookup is answered until the same
      key is put again. So one put steers at most one scoring. */
  lemma {:induction false} AtMostOneHitPerPut(ops: seq<Op>, later: seq<Op>, ttl: int, key: string, at: int, again: int)
    requires forall op :: op in later ==> !(op.Put? && op.key == key)
    ensures PendingPut(ops + [Lookup(key, at)] + later, key) == None
    ensures Answer(ops + [Lookup(key, at)] + later, ttl, key, again) == None
  {
    var spent := ops + [Lookup(key, at)];
    if later == [] {
      assert spent + later == spent;
      Extend(ops, Lookup(key, at));
    } else {
      var front, last := later[..|later| - 1], later[|later| - 1];
      assert last in later && forall op :: op in front ==> op in later;
      AtMostOneHitPerPut(ops, front, ttl, key, at, again);
      assert spent + later == (spent + front) + [last];
      Extend(spent + front, last);
    }
  }
}
