/** A larger cache holds whatever a smaller one does; and every cache agrees with a map that
    remembers everything. */
module MessageCacheProofs {
  import opened Prelude
  import opened MessageCache

  /** `a` is `b` with some entries left out. */
  ghost predicate Within<V>(a: seq<Entry<V>>, b: seq<Entry<V>>) {
    if a == [] then true
    else if b == [] then false
    else if a[0] == b[0] then Within(a[1..], b[1..])
    else Within(a, b[1..])
  }

  lemma {:induction false} WithinMembers<V>(a: seq<Entry<V>>, b: seq<Entry<V>>)
    requires Within(a, b)
    ensures |a| <= |b| && forall e | e in a :: e in b
  {
    if a != [] {
      assert a == [a[0]] + a[1..] && b == [b[0]] + b[1..];
      if a[0] == b[0] {
        WithinMembers(a[1..], b[1..]);
      } else {
        WithinMembers(a, b[1..]);
      }
    }
  }

  lemma WithinSkip<V>(a: seq<Entry<V>>, b: seq<Entry<V>>)
    requires Within(a, b)
    ensures a != [] ==> Within(a[1..], b)
    decreases |b|, 1
  {
    if a != [] {
      if a[0] == b[0] {
        WithinSkip(a[1..], b[1..]);
        WithinMore(a[1..], b);
      } else {
        WithinSkip(a, b[1..]);
        WithinMore(a[1..], b);
      }
    }
  }

  /** Something more in front of the larger one. */
  lemma WithinMore<V>(a: seq<Entry<V>>, b: seq<Entry<V>>)
    requires b != [] && Within(a, b[1..])
    ensures Within(a, b)
    decreases |b|, 0
  {
    if a != [] && a[0] == b[0] {
      WithinSkip(a, b[1..]);
    }
  }

  lemma {:induction false} KeepWithin<V>(a: seq<Entry<V>>, b: seq<Entry<V>>, d: Doomed)
    requires Within(a, b)
    ensures Within(Keep(a, d), Keep(b, d)) && |Keep(b, d)| - |Keep(a, d)| <= |b| - |a|
  {
    if a == [] {
    } else if a[0] == b[0] {
      KeepWithin(a[1..], b[1..], d);
      if Spared(a[0].key, d) {
        assert Keep(a, d)[1..] == Keep(a[1..], d) && Keep(b, d)[1..] == Keep(b[1..], d);
      } else {
        assert Keep(a, d) == Keep(a[1..], d) && Keep(b, d) == Keep(b[1..], d);
      }
    } else {
      KeepWithin(a, b[1..], d);
      if Spared(b[0].key, d) {
        assert Keep(b, d)[1..] == Keep(b[1..], d);
        WithinMore(Keep(a, d), Keep(b, d));
      } else {
        assert Keep(b, d) == Keep(b[1..], d);
      }
    }
  }

  lemma {:induction false} DropLastWithin<V>(a: seq<Entry<V>>, b: seq<Entry<V>>)
    requires Within(a, b) && a != []
    ensures b != [] && Within(a[..|a| - 1], b) && Within(a[..|a| - 1], b[..|b| - 1])
  {
    if a[0] == b[0] {
      if |a| > 1 {
        DropLastWithin(a[1..], b[1..]);
        assert a[1..][..|a| - 2] == a[..|a| - 1][1..];
        assert b[1..][..|b| - 2] == b[..|b| - 1][1..];
      }
    } else {
      DropLastWithin(a, b[1..]);
      assert b[1..][..|b| - 2] == b[..|b| - 1][1..];
      WithinMore(a[..|a| - 1], b);
      WithinMore(a[..|a| - 1], b[..|b| - 1]);
    }
  }

  /** The small cache is the large one with some entries left out, and has no more free room. */
  ghost predicate Included<V>(small: seq<Entry<V>>, large: seq<Entry<V>>, k: int, k': int) {
    && 0 < k <= k' && |small| <= k && |large| <= k' && Distinct(small) && Distinct(large)
    && Within(small, large) && |large| - |small| <= k' - k
  }

  lemma HasIsMember<V>(s: seq<Entry<V>>, k: Key)
    ensures Has(s, k) <==> exists e :: e in s && e.key == k
  {
    if Has(s, k) {
      assert s[Position(s, k)] in s;
    }
    if exists e :: e in s && e.key == k {
      var e :| e in s && e.key == k;
      var i :| 0 <= i < |s| && s[i] == e;
    }
  }

  /** Both find the same entry, unless only the larger finds one. */
  lemma SameEntry<V>(small: seq<Entry<V>>, large: seq<Entry<V>>, k: Key)
    requires Within(small, large) && Distinct(large) && Has(small, k)
    ensures Has(large, k) && large[Position(large, k)] == small[Position(small, k)]
  {
    WithinMembers(small, large);
    assert small[Position(small, k)] in large;
    HasIsMember(large, k);
  }

  lemma NotThere<V>(s: seq<Entry<V>>, k: Key)
    requires !Has(s, k)
    ensures Pop(s, k) == s
  {
    NothingDoomed(s, ByKeys({k}));
  }

  lemma PopLosesOne<V>(s: seq<Entry<V>>, k: Key)
    requires Distinct(s) && Has(s, k)
    ensures |Pop(s, k)| == |s| - 1
  {
    PopAt(s, Position(s, k));
  }

  lemma PutKeepsIncluded<V>(small: seq<Entry<V>>, large: seq<Entry<V>>, k: int, k': int, e: Entry<V>)
    requires Included(small, large, k, k')
    ensures Included(Put(small, k, e), Put(large, k', e), k, k')
  {
    PutKeepsBounds(small, k, e);
    PutKeepsBounds(large, k', e);
    KeepWithin(small, large, ByKeys({e.key}));
    if Has(small, e.key) {
      SameEntry(small, large, e.key);
      PopLosesOne(small, e.key);
      PopLosesOne(large, e.key);
    } else {
      NotThere(small, e.key);
      if small != [] {
        DropLastWithin(small, large);
        DropLastWithin(small, if Has(large, e.key) then Pop(large, e.key) else large);
      }
      if Has(large, e.key) {
        PopLosesOne(large, e.key);
      }
    }
    assert Put(small, k, e)[0] == Put(large, k', e)[0] == e;
  }

  lemma TouchKeepsIncluded<V>(small: seq<Entry<V>>, large: seq<Entry<V>>, k: int, k': int,
                              key: Key, ttl: int, now: int)
    requires Included(small, large, k, k')
    ensures Included(Touch(small, key, ttl, now), Touch(large, key, ttl, now), k, k')
  {
    TouchKeepsBounds(small, key, ttl, now);
    TouchKeepsBounds(large, key, ttl, now);
    KeepWithin(small, large, ByKeys({key}));
    if Has(small, key) {
      SameEntry(small, large, key);
      PopLosesOne(small, key);
      PopLosesOne(large, key);
      assert ([large[Position(large, key)]] + Pop(large, key))[1..] == Pop(large, key);
      assert ([large[Position(large, key)]] + Pop(small, key))[1..] == Pop(small, key);
    } else if Has(large, key) {
      NotThere(small, key);
      PopLosesOne(large, key);
      assert ([large[Position(large, key)]] + Pop(large, key))[1..] == Pop(large, key);
      WithinMore(small, [large[Position(large, key)]] + Pop(large, key));
    }
  }

  /** For every run and every two capacities, the smaller cache is the larger one, in the same order
      of use, with some entries left out. */
  lemma {:induction false} LargerHoldsMore<V>(k: int, k': int, ttl: int, ops: seq<Op<V>>)
    requires 0 < k <= k'
    ensures Included(Run(k, ttl, ops), Run(k', ttl, ops), k, k')
  {
    if ops != [] {
      var init := ops[..|ops| - 1];
      LargerHoldsMore(k, k', ttl, init);
      var small, large := Run(k, ttl, init), Run(k', ttl, init);
      match ops[|ops| - 1]
      case Insert(e) => PutKeepsIncluded(small, large, k, k', e);
      case Get(key, now) => TouchKeepsIncluded(small, large, k, k', key, ttl, now);
      case Invalidate(a) =>
        KeepWithin(small, large, ByAccount(a));
        KeepKeepsBounds(small, ByAccount(a));
        KeepKeepsBounds(large, ByAccount(a));
    }
  }

  /** So a hit in the smaller is the same hit in the larger. */
  lemma LargerHitsMore<V>(k: int, k': int, ttl: int, ops: seq<Op<V>>, key: Key, now: int)
    requires 0 < k <= k' && Lookup(Run(k, ttl, ops), key, ttl, now).Some?
    ensures Lookup(Run(k', ttl, ops), key, ttl, now) == Lookup(Run(k, ttl, ops), key, ttl, now)
  {
    LargerHoldsMore(k, k', ttl, ops);
    SameEntry(Run(k, ttl, ops), Run(k', ttl, ops), key);
  }

  // ----- the map that remembers everything -----

  /** The last entry put under the key since its account was last invalidated. */
  function LastPut<V>(ops: seq<Op<V>>, key: Key): Option<Entry<V>> {
    if ops == [] then None
    else
      var before := LastPut(ops[..|ops| - 1], key);
      match ops[|ops| - 1]
      case Insert(e) => if e.key == key then Some(e) else before
      case Get(_, _) => before
      case Invalidate(a) => if a == key.account then None else before
  }

  /** Every entry held is the last one put: a hit is the latest value, no older than the ttl. */
  lemma {:induction false} EntriesAreTheLatest<V>(capacity: int, ttl: int, ops: seq<Op<V>>)
    requires 0 < capacity
    ensures forall e :: e in Run(capacity, ttl, ops) ==> LastPut(ops, e.key) == Some(e)
  {
    if ops != [] {
      var init := ops[..|ops| - 1];
      var s := Run(capacity, ttl, init);
      EntriesAreTheLatest(capacity, ttl, init);
      match ops[|ops| - 1]
      case Insert(e) =>
        KeepMembers(s, ByKeys({e.key}));
        HasIsMember(s, e.key);
        assert forall f | |s| > 0 && f in s[..|s| - 1] :: f in s;
      case Get(k, now) => KeepMembers(s, ByKeys({k}));
      case Invalidate(a) => KeepMembers(s, ByAccount(a));
    }
  }

  lemma HitsAreTheLatest<V>(capacity: int, ttl: int, ops: seq<Op<V>>, key: Key, now: int)
    requires 0 < capacity && Lookup(Run(capacity, ttl, ops), key, ttl, now).Some?
    ensures var e := LastPut(ops, key);
            && e.Some? && now - e.value.inserted <= ttl
            && Lookup(Run(capacity, ttl, ops), key, ttl, now) == Some(e.value.value)
  {
    EntriesAreTheLatest(capacity, ttl, ops);
    var s := Run(capacity, ttl, ops);
    assert s[Position(s, key)] in s;
  }

  /** Time only goes forward, and nobody looks back past `now`. */
  predicate Clocked<V>(ops: seq<Op<V>>, now: int) {
    if ops == [] then true
    else
      match ops[|ops| - 1]
      case Insert(e) => e.inserted <= now && Clocked(ops[..|ops| - 1], e.inserted)
      case Get(_, t) => t <= now && Clocked(ops[..|ops| - 1], t)
      case Invalidate(_) => Clocked(ops[..|ops| - 1], now)
  }

  /** The keys ever put. */
  function KeysPut<V>(ops: seq<Op<V>>): set<Key> {
    if ops == [] then {}
    else KeysPut(ops[..|ops| - 1]) + (match ops[|ops| - 1] case Insert(e) => {e.key} case _ => {})
  }

  ghost function KeysOf<V>(s: seq<Entry<V>>): set<Key> {
    set e | e in s :: e.key
  }

  lemma {:induction false} AsManyKeys<V>(s: seq<Entry<V>>)
    requires Distinct(s)
    ensures |KeysOf(s)| == |s|
  {
    if s != [] {
      AsManyKeys(s[1..]);
      assert s == [s[0]] + s[1..];
      assert KeysOf(s) == {s[0].key} + KeysOf(s[1..]);
      forall e | e in s[1..]
        ensures e.key != s[0].key
      {
        var i :| 0 <= i < |s[1..]| && s[1..][i] == e;
        assert s[i + 1] == e;
      }
    }
  }

  lemma {:induction false} KeysWerePut<V>(ops: seq<Op<V>>, key: Key)
    requires LastPut(ops, key).Some?
    ensures key in KeysPut(ops) && LastPut(ops, key).value.key == key
  {
    if ops != [] && LastPut(ops[..|ops| - 1], key).Some? {
      KeysWerePut(ops[..|ops| - 1], key);
    }
  }

  /** The keys held were put; so with room for every key ever put, a new key evicts nothing. */
  lemma RoomForOneMore<V>(capacity: int, ttl: int, init: seq<Op<V>>, e: Entry<V>)
    requires 0 < capacity && |KeysPut(init) + {e.key}| <= capacity
    requires !Has(Run(capacity, ttl, init), e.key)
    ensures |Run(capacity, ttl, init)| < capacity
  {
    var s := Run(capacity, ttl, init);
    RunKeepsBounds(capacity, ttl, init);
    EntriesAreTheLatest(capacity, ttl, init);
    AsManyKeys(s);
    HasIsMember(s, e.key);
    forall f | f in s
      ensures f.key in KeysPut(init) && f.key != e.key
    {
      KeysWerePut(init, f.key);
    }
    SubsetIsSmaller(KeysOf(s) + {e.key}, KeysPut(init) + {e.key});
    assert |KeysOf(s) + {e.key}| == |KeysOf(s)| + 1;
  }

  lemma SubsetIsSmaller<T>(a: set<T>, b: set<T>)
    requires a <= b
    ensures |a| <= |b|
  {
    assert b == a + (b - a);
  }

  lemma MemberIsHad<V>(s: seq<Entry<V>>, d: Doomed, k: Key)
    requires Has(s, k) && Spared(k, d)
    ensures Has(Keep(s, d), k)
  {
    KeepMembers(s, d);
    assert s[Position(s, k)] in s;
    HasIsMember(Keep(s, d), k);
  }

  lemma HadBehind<V>(e: Entry<V>, s: seq<Entry<V>>, k: Key)
    requires Has(s, k)
    ensures Has([e] + s, k)
  {
    assert ([e] + s)[Position(s, k) + 1].key == k;
  }

  /** With room for every key ever put, nothing fresh is missing. */
  lemma {:induction false} RoomyForgetsNothingFresh<V>(capacity: int, ttl: int, ops: seq<Op<V>>, now: int, key: Key)
    requires 0 < capacity && |KeysPut(ops)| <= capacity && Clocked(ops, now)
    requires LastPut(ops, key).Some? && Live(LastPut(ops, key).value, ttl, now)
    ensures Has(Run(capacity, ttl, ops), key)
  {
    var init, op := ops[..|ops| - 1], ops[|ops| - 1];
    var s := Run(capacity, ttl, init);
    SubsetIsSmaller(KeysPut(init), KeysPut(ops));
    match op
    case Insert(e) =>
      if e.key == key {
        assert Put(s, capacity, e)[0].key == key;
      } else {
        RoomyForgetsNothingFresh(capacity, ttl, init, e.inserted, key);
        if Has(s, e.key) {
          MemberIsHad(s, ByKeys({e.key}), key);
          HadBehind(e, Pop(s, e.key), key);
        } else {
          RoomForOneMore(capacity, ttl, init, e);
          HadBehind(e, s, key);
        }
      }
    case Get(k, t) =>
      RoomyForgetsNothingFresh(capacity, ttl, init, t, key);
      EntriesAreTheLatest(capacity, ttl, init);
      if k == key {
        var e := s[Position(s, k)];
        assert e in s;
        assert Touch(s, k, ttl, t)[0] == e;
      } else {
        MemberIsHad(s, ByKeys({k}), key);
        if Has(s, k) {
          HadBehind(s[Position(s, k)], Pop(s, k), key);
        }
      }
    case Invalidate(a) =>
      RoomyForgetsNothingFresh(capacity, ttl, init, now, key);
      MemberIsHad(s, ByAccount(a), key);
  }

  /** A cache with room for every key ever put is the map that remembers everything. */
  lemma RoomyIsTheMap<V>(capacity: int, ttl: int, ops: seq<Op<V>>, now: int, key: Key)
    requires 0 < capacity && |KeysPut(ops)| <= capacity && Clocked(ops, now)
    ensures var e := LastPut(ops, key);
            Lookup(Run(capacity, ttl, ops), key, ttl, now) ==
              if e.Some? && now - e.value.inserted <= ttl then Some(e.value.value) else None
  {
    var e := LastPut(ops, key);
    if e.Some? && Live(e.value, ttl, now) {
      RoomyForgetsNothingFresh(capacity, ttl, ops, now, key);
    }
    if Has(Run(capacity, ttl, ops), key) {
      EntriesAreTheLatest(capacity, ttl, ops);
      assert Run(capacity, ttl, ops)[Position(Run(capacity, ttl, ops), key)] in Run(capacity, ttl, ops);
    }
  }

  /** Invalidating an account removes its entries and only those, and keeps the order of the rest. */
  lemma InvalidationIsExact<V>(s: seq<Entry<V>>, account: AccountId)
    ensures var s' := Keep(s, ByAccount(account));
            Within(s', s) && forall e :: e in s' <==> e in s && e.key.account != account
  {
    KeepMembers(s, ByAccount(account));
    KeepIsWithin(s, ByAccount(account));
  }

  lemma {:induction false} KeepIsWithin<V>(s: seq<Entry<V>>, d: Doomed)
    ensures Within(Keep(s, d), s)
  {
    if s != [] {
      KeepIsWithin(s[1..], d);
      if Spared(s[0].key, d) {
        assert Keep(s, d)[1..] == Keep(s[1..], d);
      } else {
        assert Keep(s, d) == Keep(s[1..], d);
        WithinMore(Keep(s, d), s);
      }
    }
  }
}
