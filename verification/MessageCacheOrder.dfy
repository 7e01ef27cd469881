/** Which entries a cache lets go, in terms of the operations alone. */
module MessageCacheOrder {
  import opened Prelude
  import opened MessageCache
  import opened MessageCacheProofs

  /** The operation uses the key: it puts it, or gets it and finds it. */
  predicate Uses<V>(capacity: int, ttl: int, before: seq<Op<V>>, op: Op<V>, k: Key) {
    match op
    case Insert(e) => e.key == k
    case Get(key, now) => key == k && Lookup(Run(capacity, ttl, before), k, ttl, now).Some?
    case Invalidate(_) => false
  }

  /** The position of the last operation that uses the key, or -1. */
  function LastUse<V>(capacity: int, ttl: int, ops: seq<Op<V>>, k: Key): (n: int)
    ensures -1 <= n < |ops|
  {
    if ops == [] then -1
    else
      var init := ops[..|ops| - 1];
      if Uses(capacity, ttl, init, ops[|ops| - 1], k) then |init| else LastUse(capacity, ttl, init, k)
  }

  /** Each entry was used later than the next. */
  ghost predicate Descending<V>(s: seq<Entry<V>>, use: Key -> int) {
    forall i, j | 0 <= i < j < |s| :: use(s[i].key) > use(s[j].key)
  }

  lemma ConsDescending<V>(e: Entry<V>, s: seq<Entry<V>>, use: Key -> int)
    requires Descending(s, use)
    requires forall x | x in s :: use(e.key) > use(x.key)
    ensures Descending([e] + s, use)
  {
    forall i, j | 0 <= i < j < |[e] + s|
      ensures use(([e] + s)[i].key) > use(([e] + s)[j].key)
    {
      assert ([e] + s)[j] == s[j - 1];
      if i > 0 {
        assert ([e] + s)[i] == s[i - 1];
      }
    }
  }

  lemma TailDescending<V>(s: seq<Entry<V>>, use: Key -> int)
    requires s != [] && Descending(s, use)
    ensures Descending(s[1..], use)
    ensures forall x | x in s[1..] :: use(s[0].key) > use(x.key)
  {
    forall x | x in s[1..]
      ensures use(s[0].key) > use(x.key)
    {
      var i :| 0 <= i < |s[1..]| && s[1..][i] == x;
      assert s[i + 1] == x;
    }
  }

  lemma {:induction false} KeepDescending<V>(s: seq<Entry<V>>, d: Doomed, use: Key -> int)
    requires Descending(s, use)
    ensures Descending(Keep(s, d), use)
  {
    if s != [] {
      TailDescending(s, use);
      KeepDescending(s[1..], d, use);
      KeepMembers(s[1..], d);
      if Spared(s[0].key, d) {
        ConsDescending(s[0], Keep(s[1..], d), use);
      } else {
        assert Keep(s, d) == Keep(s[1..], d);
      }
    }
  }

  /** The uses of entries other than the one in front have not changed. */
  lemma FrontDescending<V>(e: Entry<V>, s: seq<Entry<V>>, use: Key -> int, use': Key -> int)
    requires Descending(s, use)
    requires forall i | 0 <= i < |s| :: use'(s[i].key) == use(s[i].key) < use'(e.key)
    ensures Descending([e] + s, use')
  {
  }

  lemma SameDescending<V>(s: seq<Entry<V>>, use: Key -> int, use': Key -> int)
    requires Descending(s, use)
    requires forall i | 0 <= i < |s| :: use'(s[i].key) == use(s[i].key)
    ensures Descending(s, use')
  {
  }

  function UseIn<V>(capacity: int, ttl: int, ops: seq<Op<V>>): Key -> int {
    k => LastUse(capacity, ttl, ops, k)
  }

  lemma PopLeavesOthers<V>(s: seq<Entry<V>>, k: Key)
    ensures forall i | 0 <= i < |Pop(s, k)| :: Pop(s, k)[i].key != k
  {
    KeepMembers(s, ByKeys({k}));
    forall i | 0 <= i < |Pop(s, k)|
      ensures Pop(s, k)[i].key != k
    {
      assert Pop(s, k)[i] in Pop(s, k);
    }
  }

  lemma AbsentEverywhere<V>(s: seq<Entry<V>>, k: Key)
    requires !Has(s, k)
    ensures forall i | 0 <= i < |s| :: s[i].key != k
  {
  }

  lemma PuttingKeepsOrder<V>(capacity: int, ttl: int, init: seq<Op<V>>, e: Entry<V>)
    requires Descending(Run(capacity, ttl, init), UseIn(capacity, ttl, init))
    ensures Descending(Run(capacity, ttl, init + [Insert(e)]), UseIn(capacity, ttl, init + [Insert(e)]))
  {
    var s, ops := Run(capacity, ttl, init), init + [Insert(e)];
    var use, use' := UseIn(capacity, ttl, init), UseIn(capacity, ttl, ops);
    assert ops[..|init|] == init;
    if Has(s, e.key) {
      KeepDescending(s, ByKeys({e.key}), use);
      PopLeavesOthers(s, e.key);
      FrontDescending(e, Pop(s, e.key), use, use');
    } else {
      AbsentEverywhere(s, e.key);
      FrontDescending(e, if 0 < |s| && capacity <= |s| then s[..|s| - 1] else s, use, use');
    }
  }

  lemma GettingKeepsOrder<V>(capacity: int, ttl: int, init: seq<Op<V>>, k: Key, now: int)
    requires Descending(Run(capacity, ttl, init), UseIn(capacity, ttl, init))
    ensures Descending(Run(capacity, ttl, init + [Get(k, now)]), UseIn(capacity, ttl, init + [Get(k, now)]))
  {
    var s, ops := Run(capacity, ttl, init), init + [Get(k, now)];
    var use, use' := UseIn(capacity, ttl, init), UseIn(capacity, ttl, ops);
    assert ops[..|init|] == init;
    if !Has(s, k) {
      AbsentEverywhere(s, k);
      SameDescending(s, use, use');
    } else {
      KeepDescending(s, ByKeys({k}), use);
      PopLeavesOthers(s, k);
      if Live(s[Position(s, k)], ttl, now) {
        FrontDescending(s[Position(s, k)], Pop(s, k), use, use');
      } else {
        SameDescending(Pop(s, k), use, use');
      }
    }
  }

  /** In every cache of every run the entries stand in the order of their last use, latest first. */
  lemma {:induction false} EntriesStandInOrderOfUse<V>(capacity: int, ttl: int, ops: seq<Op<V>>)
    ensures var s := Run(capacity, ttl, ops);
            forall i, j | 0 <= i < j < |s| ::
              LastUse(capacity, ttl, ops, s[i].key) > LastUse(capacity, ttl, ops, s[j].key)
  {
    InOrder(capacity, ttl, ops);
  }

  lemma {:induction false} InOrder<V>(capacity: int, ttl: int, ops: seq<Op<V>>)
    ensures Descending(Run(capacity, ttl, ops), UseIn(capacity, ttl, ops))
  {
    if ops != [] {
      var init := ops[..|ops| - 1];
      InOrder(capacity, ttl, init);
      assert ops == init + [ops[|ops| - 1]];
      match ops[|ops| - 1]
      case Insert(e) => PuttingKeepsOrder(capacity, ttl, init, e);
      case Get(k, now) => GettingKeepsOrder(capacity, ttl, init, k, now);
      case Invalidate(a) =>
        KeepDescending(Run(capacity, ttl, init), ByAccount(a), UseIn(capacity, ttl, init));
        SameDescending(Keep(Run(capacity, ttl, init), ByAccount(a)), UseIn(capacity, ttl, init),
                       UseIn(capacity, ttl, ops));
    }
  }

  /** The entry of a cache whose last use is earliest. */
  ghost predicate LeastRecentlyUsed<V>(capacity: int, ttl: int, ops: seq<Op<V>>, victim: Entry<V>) {
    && victim in Run(capacity, ttl, ops)
    && forall x | x in Run(capacity, ttl, ops) && x != victim ::
         LastUse(capacity, ttl, ops, x.key) > LastUse(capacity, ttl, ops, victim.key)
  }

  /** A put into a full cache that does not have the key takes out the entry used longest ago, and no other. */
  lemma APutEvictsTheLeastRecentlyUsed<V>(capacity: int, ttl: int, ops: seq<Op<V>>, e: Entry<V>)
    returns (victim: Entry<V>)
    requires 0 < capacity == |Run(capacity, ttl, ops)| && !Has(Run(capacity, ttl, ops), e.key)
    ensures LeastRecentlyUsed(capacity, ttl, ops, victim)
    ensures forall x :: x in Run(capacity, ttl, ops + [Insert(e)]) <==>
              x == e || (x in Run(capacity, ttl, ops) && x != victim)
  {
    var s := Run(capacity, ttl, ops);
    InOrder(capacity, ttl, ops);
    RunKeepsBounds(capacity, ttl, ops);
    victim := s[|s| - 1];
    assert (ops + [Insert(e)])[..|ops|] == ops;
    forall x | x in s && x != victim
      ensures LastUse(capacity, ttl, ops, x.key) > LastUse(capacity, ttl, ops, victim.key)
      ensures x in s[..|s| - 1]
    {
      var i :| 0 <= i < |s| && s[i] == x;
      assert UseIn(capacity, ttl, ops)(s[i].key) > UseIn(capacity, ttl, ops)(s[|s| - 1].key);
      assert s[..|s| - 1][i] == x;
    }
    assert victim !in s[..|s| - 1];
    assert forall x | x in s[..|s| - 1] :: x in s;
  }

  /** Any other put takes out the old entry of its key, if there is one, and nothing else. */
  lemma OtherPutsEvictNothing<V>(capacity: int, ttl: int, ops: seq<Op<V>>, e: Entry<V>)
    requires 0 < capacity
    requires |Run(capacity, ttl, ops)| < capacity || Has(Run(capacity, ttl, ops), e.key)
    ensures forall x :: x in Run(capacity, ttl, ops + [Insert(e)]) <==>
              x == e || (x in Run(capacity, ttl, ops) && x.key != e.key)
  {
    var s := Run(capacity, ttl, ops);
    assert (ops + [Insert(e)])[..|ops|] == ops;
    KeepMembers(s, ByKeys({e.key}));
    if !Has(s, e.key) {
      NotThere(s, e.key);
    }
  }

  /** A get returns the value of the key's entry exactly if it is no older than the ttl; an older one is
      taken out, and nothing else is. */
  lemma AGetTakesOutWhatHasExpired<V>(capacity: int, ttl: int, ops: seq<Op<V>>, k: Key, now: int)
    requires 0 < capacity
    ensures var s := Run(capacity, ttl, ops);
            && (forall v :: Lookup(s, k, ttl, now) == Some(v) <==>
                  exists x :: x in s && x.key == k && x.value == v && now - x.inserted <= ttl)
            && (forall x :: x in Run(capacity, ttl, ops + [Get(k, now)]) <==>
                  x in s && (x.key == k ==> now - x.inserted <= ttl))
  {
    var s := Run(capacity, ttl, ops);
    assert (ops + [Get(k, now)])[..|ops|] == ops;
    RunKeepsBounds(capacity, ttl, ops);
    KeepMembers(s, ByKeys({k}));
    HasIsMember(s, k);
    if Has(s, k) {
      var e := s[Position(s, k)];
      forall x | x in s && x.key == k
        ensures x == e
      {
        var i :| 0 <= i < |s| && s[i] == x;
      }
    }
  }
}
