/** The bounded message cache: least recently used goes first, and entries expire. */
module MessageCache {
  import opened Prelude

  type AccountId = int

  datatype Key = Key(account: AccountId, message: string)

  datatype Entry<V> = Entry(key: Key, value: V, inserted: int)

  datatype Doomed = ByKeys(keys: set<Key>) | ByAccount(account: AccountId)

  predicate Spared(k: Key, d: Doomed) {
    match d case ByKeys(keys) => k !in keys case ByAccount(a) => k.account != a
  }

  /** The entries `d` does not doom, in their order. */
  function Keep<V>(s: seq<Entry<V>>, d: Doomed): (r: seq<Entry<V>>)
    ensures |r| <= |s|
  {
    if s == [] then []
    else (if Spared(s[0].key, d) then [s[0]] else []) + Keep(s[1..], d)
  }

  predicate Has<V>(s: seq<Entry<V>>, k: Key) {
    exists i | 0 <= i < |s| :: s[i].key == k
  }

  function Position<V>(s: seq<Entry<V>>, k: Key): (i: nat)
    requires Has(s, k)
    ensures i < |s| && s[i].key == k
  {
    if s[0].key == k then 0 else 1 + Position(s[1..], k)
  }

  function Pop<V>(s: seq<Entry<V>>, k: Key): seq<Entry<V>> {
    Keep(s, ByKeys({k}))
  }

  /** A cache is its entries, most recently used first. */
  function Put<V>(s: seq<Entry<V>>, capacity: int, e: Entry<V>): seq<Entry<V>> {
    if Has(s, e.key) then [e] + Pop(s, e.key)
    else if 0 < |s| && capacity <= |s| then [e] + s[..|s| - 1]
    else [e] + s
  }

  predicate Live<V>(e: Entry<V>, ttl: int, now: int) {
    now - e.inserted <= ttl
  }

  function Lookup<V>(s: seq<Entry<V>>, k: Key, ttl: int, now: int): Option<V> {
    if Has(s, k) && Live(s[Position(s, k)], ttl, now) then Some(s[Position(s, k)].value) else None
  }

  function Touch<V>(s: seq<Entry<V>>, k: Key, ttl: int, now: int): seq<Entry<V>> {
    if !Has(s, k) then s
    else if Live(s[Position(s, k)], ttl, now) then [s[Position(s, k)]] + Pop(s, k)
    else Pop(s, k)
  }

  datatype Op<V> =
    | Insert(e: Entry<V>)
    | Get(key: Key, now: int)
    | Invalidate(account: AccountId)

  function Step<V>(s: seq<Entry<V>>, capacity: int, ttl: int, op: Op<V>): seq<Entry<V>> {
    match op
    case Insert(e) => Put(s, capacity, e)
    case Get(k, now) => Touch(s, k, ttl, now)
    case Invalidate(a) => Keep(s, ByAccount(a))
  }

  function Run<V>(capacity: int, ttl: int, ops: seq<Op<V>>): seq<Entry<V>> {
    if ops == [] then []
    else Step(Run(capacity, ttl, ops[..|ops| - 1]), capacity, ttl, ops[|ops| - 1])
  }

  predicate Distinct<V>(s: seq<Entry<V>>) {
    forall i, j | 0 <= i < j < |s| :: s[i].key != s[j].key
  }

  class Cache<V> {
    var entries: seq<Entry<V>>
    const capacity: int
    const ttl: int

    ghost predicate Valid()
      reads this
    {
      0 < capacity && |entries| <= capacity && Distinct(entries)
    }

    constructor (capacity: int, ttl: int)
      requires 0 < capacity
      ensures Valid() && entries == [] && this.capacity == capacity && this.ttl == ttl
    {
      this.entries, this.capacity, this.ttl := [], capacity, ttl;
    }

    method PutValue(account: AccountId, message: string, value: V, now: int)
      requires Valid()
      modifies this
      ensures Valid() && entries == Put(old(entries), capacity, Entry(Key(account, message), value, now))
    {
      var e := Entry(Key(account, message), value, now);
      PutKeepsBounds(entries, capacity, e);
      var at := Find(e.key);
      if at < |entries| {
        entries := [e] + entries[..at] + entries[at + 1..];
      } else if |entries| == capacity {
        entries := [e] + entries[..|entries| - 1];
      } else {
        entries := [e] + entries;
      }
    }

    /** Where the key is, looking from the front; the length if it is nowhere. */
    method Find(k: Key) returns (at: nat)
      requires Valid()
      ensures at <= |entries| && (at < |entries| <==> Has(entries, k))
      ensures at < |entries| ==>
        at == Position(entries, k) && Pop(entries, k) == entries[..at] + entries[at + 1..]
    {
      at := 0;
      while at < |entries| && entries[at].key != k
        invariant at <= |entries|
        invariant forall i | 0 <= i < at :: entries[i].key != k
      {
        at := at + 1;
      }
      if at < |entries| {
        PopAt(entries, at);
        PositionAt(entries, at);
      }
    }

    method GetValue(account: AccountId, message: string, now: int) returns (found: Option<V>)
      requires Valid()
      modifies this
      ensures Valid() && entries == Touch(old(entries), Key(account, message), ttl, now)
      ensures found == Lookup(old(entries), Key(account, message), ttl, now)
    {
      var k := Key(account, message);
      TouchKeepsBounds(entries, k, ttl, now);
      var at := Find(k);
      if at == |entries| {
        return None;
      }
      var e := entries[at];
      var rest := entries[..at] + entries[at + 1..];
      if now - e.inserted <= ttl {
        entries := [e] + rest;
        return Some(e.value);
      }
      entries := rest;
      return None;
    }

    method InvalidateAccount(account: AccountId)
      requires Valid()
      modifies this
      ensures Valid() && entries == Keep(old(entries), ByAccount(account))
    {
      var toRemove: seq<Key> := [];
      var i := 0;
      while i < |entries|
        invariant 0 <= i <= |entries|
        invariant forall k :: k in toRemove <==> exists j | 0 <= j < i :: entries[j].key == k && k.account == account
      {
        if entries[i].key.account == account {
          toRemove := toRemove + [entries[i].key];
        }
        i := i + 1;
      }
      i := 0;
      ghost var gone: set<Key> := {};
      KeepNone(entries);
      while i < |toRemove|
        invariant 0 <= i <= |toRemove|
        invariant gone == set k | k in toRemove[..i]
        invariant Valid() && entries == Keep(old(entries), ByKeys(gone))
      {
        var k := toRemove[i];
        PopAfterPop(old(entries), gone, k);
        KeepKeepsBounds(entries, ByKeys({k}));
        var at := Find(k);
        if at < |entries| {
          entries := entries[..at] + entries[at + 1..];
        } else {
          NothingDoomed(entries, ByKeys({k}));
        }
        gone := gone + {k};
        i := i + 1;
      }
      SameDoomed(old(entries), ByKeys(gone), ByAccount(account));
    }
  }

  // ----- sequences of entries -----

  lemma {:induction false} KeepMembers<V>(s: seq<Entry<V>>, d: Doomed)
    ensures forall e | e in Keep(s, d) :: e in s && Spared(e.key, d)
    ensures forall e | e in s && Spared(e.key, d) :: e in Keep(s, d)
  {
    if s != [] {
      KeepMembers(s[1..], d);
      assert forall e :: e in s <==> e == s[0] || e in s[1..];
    }
  }

  lemma {:induction false} KeepKeepsBounds<V>(s: seq<Entry<V>>, d: Doomed)
    requires Distinct(s)
    ensures Distinct(Keep(s, d))
  {
    if s != [] {
      KeepKeepsBounds(s[1..], d);
      KeepMembers(s[1..], d);
      forall j | 0 <= j < |Keep(s[1..], d)|
        ensures Keep(s[1..], d)[j].key != s[0].key
      {
        var e := Keep(s[1..], d)[j];
        assert e in Keep(s[1..], d);
        var i :| 0 <= i < |s[1..]| && s[1..][i] == e;
        assert s[i + 1] == e;
      }
    }
  }

  lemma {:induction false} SameDoomed<V>(s: seq<Entry<V>>, c: Doomed, d: Doomed)
    requires forall i | 0 <= i < |s| :: Spared(s[i].key, c) <==> Spared(s[i].key, d)
    ensures Keep(s, c) == Keep(s, d)
  {
    if s != [] {
      assert Spared(s[0].key, c) <==> Spared(s[0].key, d);
      forall i | 0 <= i < |s[1..]|
        ensures Spared(s[1..][i].key, c) <==> Spared(s[1..][i].key, d)
      {
        assert s[1..][i] == s[i + 1];
      }
      SameDoomed(s[1..], c, d);
    }
  }

  lemma {:induction false} NothingDoomed<V>(s: seq<Entry<V>>, d: Doomed)
    requires forall i | 0 <= i < |s| :: Spared(s[i].key, d)
    ensures Keep(s, d) == s
  {
    if s != [] {
      NothingDoomed(s[1..], d);
      assert s == [s[0]] + s[1..];
    }
  }

  lemma KeepNone<V>(s: seq<Entry<V>>)
    ensures Keep(s, ByKeys({})) == s
  {
    NothingDoomed(s, ByKeys({}));
  }

  lemma {:induction false} PopAfterPop<V>(s: seq<Entry<V>>, gone: set<Key>, k: Key)
    ensures Pop(Keep(s, ByKeys(gone)), k) == Keep(s, ByKeys(gone + {k}))
  {
    if s != [] {
      PopAfterPop(s[1..], gone, k);
      var rest := Keep(s[1..], ByKeys(gone));
      assert s[0].key in gone ==> Keep(s, ByKeys(gone)) == rest;
      assert s[0].key !in gone ==> Keep(s, ByKeys(gone))[0] == s[0] && Keep(s, ByKeys(gone))[1..] == rest;
    }
  }

  lemma {:induction false} PopAt<V>(s: seq<Entry<V>>, at: nat)
    requires at < |s| && Distinct(s)
    ensures Pop(s, s[at].key) == s[..at] + s[at + 1..]
  {
    if at == 0 {
      NothingDoomed(s[1..], ByKeys({s[0].key}));
    } else {
      PopAt(s[1..], at - 1);
      assert s[..at] + s[at + 1..] == [s[0]] + (s[1..][..at - 1] + s[1..][at..]);
    }
  }

  lemma {:induction false} PositionAt<V>(s: seq<Entry<V>>, at: nat)
    requires at < |s| && Distinct(s)
    ensures Has(s, s[at].key) && Position(s, s[at].key) == at
  {
    if at > 0 {
      PositionAt(s[1..], at - 1);
    }
  }

  lemma PutKeepsBounds<V>(s: seq<Entry<V>>, capacity: int, e: Entry<V>)
    requires 0 < capacity && |s| <= capacity && Distinct(s)
    ensures |Put(s, capacity, e)| <= capacity && Distinct(Put(s, capacity, e))
  {
    if Has(s, e.key) {
      var at := Position(s, e.key);
      PopAt(s, at);
    }
  }

  lemma TouchKeepsBounds<V>(s: seq<Entry<V>>, k: Key, ttl: int, now: int)
    requires Distinct(s)
    ensures |Touch(s, k, ttl, now)| <= |s| && Distinct(Touch(s, k, ttl, now))
  {
    if Has(s, k) {
      PopAt(s, Position(s, k));
    }
  }

  /** Whatever is done to it, a cache holds at most its capacity, and one entry a key. */
  lemma {:induction false} RunKeepsBounds<V>(capacity: int, ttl: int, ops: seq<Op<V>>)
    requires 0 < capacity
    ensures |Run(capacity, ttl, ops)| <= capacity && Distinct(Run(capacity, ttl, ops))
  {
    if ops != [] {
      var s := Run(capacity, ttl, ops[..|ops| - 1]);
      RunKeepsBounds(capacity, ttl, ops[..|ops| - 1]);
      match ops[|ops| - 1]
      case Insert(e) => PutKeepsBounds(s, capacity, e);
      case Get(k, now) => TouchKeepsBounds(s, k, ttl, now);
      case Invalidate(a) => KeepKeepsBounds(s, ByAccount(a));
    }
  }
}
