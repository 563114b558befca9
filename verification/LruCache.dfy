// The in-process cache of tool_server/api_server_deepresearch_redis.py, against a specification by
// its whole history of calls.
module LruCache {
  import opened Options

  // ---- lists of distinct keys ----

  predicate Distinct<K(==)>(s: seq<K>) { forall i, j :: 0 <= i < j < |s| ==> s[i] != s[j] }

  function Without<K(==)>(s: seq<K>, k: K): seq<K> {
    if s == [] then [] else (if s[0] == k then [] else [s[0]]) + Without(s[1..], k)
  }

  lemma {:induction false} WithoutIn<K>(s: seq<K>, k: K, x: K)
    ensures x in Without(s, k) <==> x in s && x != k
  {
    if s != [] { WithoutIn(s[1..], k, x); }
  }

  lemma {:induction false} WithoutAbsent<K>(s: seq<K>, k: K)
    requires k !in s
    ensures Without(s, k) == s
  {
    if s != [] { WithoutAbsent(s[1..], k); }
  }

  lemma {:induction false} WithoutAppend<K>(a: seq<K>, b: seq<K>, k: K)
    ensures Without(a + b, k) == Without(a, k) + Without(b, k)
  {
    if a == [] {
      assert a + b == b;
    } else {
      assert (a + b)[1..] == a[1..] + b;
      WithoutAppend(a[1..], b, k);
    }
  }

  lemma {:induction false} WithoutTwice<K>(s: seq<K>, a: K, b: K)
    ensures Without(Without(s, a), b) == Without(Without(s, b), a)
  {
    if s != [] {
      WithoutTwice(s[1..], a, b);
      WithoutAppend([s[0]], s[1..], a);
      WithoutAppend([s[0]], s[1..], b);
      assert [s[0]] + s[1..] == s;
      WithoutAppend(Without([s[0]], a), Without(s[1..], a), b);
      WithoutAppend(Without([s[0]], b), Without(s[1..], b), a);
    }
  }

  lemma {:induction false} WithoutDistinct<K>(s: seq<K>, k: K)
    requires Distinct(s)
    ensures Distinct(Without(s, k))
    ensures |Without(s, k)| == if k in s then |s| - 1 else |s|
  {
    if s != [] {
      WithoutDistinct(s[1..], k);
      forall x | x in Without(s[1..], k) ensures x in s[1..] { WithoutIn(s[1..], k, x); }
      assert forall j :: 0 <= j < |s[1..]| ==> s[1..][j] == s[j + 1];
      assert s[0] !in s[1..] && Distinct(s[1..]);
      if s[0] == k {
        WithoutAbsent(s[1..], k);
      } else {
        var r := Without(s[1..], k);
        assert forall j :: 0 <= j < |r| ==> r[j] in r;
      }
    }
  }

  lemma {:induction false} WithoutAt<K>(s: seq<K>, i: nat)
    requires Distinct(s) && i < |s|
    ensures Without(s, s[i]) == s[..i] + s[i + 1..]
  {
    if i == 0 {
      assert forall j :: 0 <= j < |s[1..]| ==> s[1..][j] == s[j + 1];
      WithoutAbsent(s[1..], s[0]);
      assert s[..0] + s[1..] == s[1..];
    } else {
      var t := s[1..];
      assert forall j :: 0 <= j < |t| ==> t[j] == s[j + 1];
      WithoutAt(t, i - 1);
      assert [s[0]] + (t[..i - 1] + t[i..]) == s[..i] + s[i + 1..];
    }
  }

  // k put at the end, as move_to_end and pop-then-insert both do.
  function Touch<K(==)>(s: seq<K>, k: K): seq<K> { Without(s, k) + [k] }

  lemma {:induction false} TouchDistinct<K>(s: seq<K>, k: K)
    requires Distinct(s)
    ensures Distinct(Touch(s, k)) && |Touch(s, k)| == if k in s then |s| else |s| + 1
    ensures forall x :: x in Touch(s, k) <==> x in s || x == k
  {
    WithoutDistinct(s, k);
    forall x ensures x in Without(s, k) <==> x in s && x != k { WithoutIn(s, k, x); }
  }

  // ---- the cache: an ordered dict is an order and a map ----

  datatype Cache<K, V> = Cache(order: seq<K>, values: map<K, V>)
  datatype Op<K, V> = Get(key: K) | Set(key: K, value: V)

  predicate WellFormed<K, V>(c: Cache<K, V>, maxsize: nat) {
    && Distinct(c.order) && |c.order| <= maxsize
    && (forall k :: k in c.order ==> k in c.values) && (forall k :: k in c.values ==> k in c.order)
  }

  function Step<K(==), V>(c: Cache<K, V>, maxsize: nat, op: Op<K, V>): Cache<K, V> {
    if maxsize == 0 then c
    else
      match op
      case Get(k) => if k in c.values then c.(order := Touch(c.order, k)) else c
      case Set(k, v) =>
        if k in c.values then c.(order := Touch(c.order, k))
        else if c.order != [] && |c.order| >= maxsize then
          Cache(c.order[1..] + [k], (c.values - {c.order[0]})[k := v])
        else Cache(c.order + [k], c.values[k := v])
  }

  function Run<K(==), V>(maxsize: nat, ops: seq<Op<K, V>>): Cache<K, V> {
    if ops == [] then Cache([], map[])
    else Step(Run(maxsize, ops[..|ops| - 1]), maxsize, ops[|ops| - 1])
  }

  // ---- the specification ----

  // The operations that use a key: every set, and the gets that find it.
  function Touched<K(==), V>(maxsize: nat, ops: seq<Op<K, V>>): seq<K> {
    if ops == [] then []
    else
      var before, op := ops[..|ops| - 1], ops[|ops| - 1];
      if op.Set? || op.key in Run(maxsize, before).values then Touched(maxsize, before) + [op.key]
      else Touched(maxsize, before)
  }

  // The distinct keys of a list of uses, in the order of their last use.
  function Recency<K(==)>(uses: seq<K>): seq<K> {
    if uses == [] then [] else Touch(Recency(uses[..|uses| - 1]), uses[|uses| - 1])
  }

  function Last<K>(s: seq<K>, n: nat): seq<K> { if |s| <= n then s else s[|s| - n..] }

  // What Recency means: a key is before another when its last use is earlier.
  predicate LastUse<K(==)>(uses: seq<K>, k: K, i: nat) {
    i < |uses| && uses[i] == k && forall j :: i < j < |uses| ==> uses[j] != k
  }

  lemma {:induction false} RecencyKeys<K>(uses: seq<K>)
    ensures Distinct(Recency(uses)) && forall k :: k in Recency(uses) <==> k in uses
  {
    if uses != [] {
      RecencyKeys(uses[..|uses| - 1]);
      TouchDistinct(Recency(uses[..|uses| - 1]), uses[|uses| - 1]);
    }
  }

  lemma {:induction false} WithoutOrder<K>(s: seq<K>, k: K, p: nat, q: nat)
    returns (i: nat, j: nat)
    requires p < q < |Without(s, k)|
    ensures i < j < |s| && s[i] == Without(s, k)[p] && s[j] == Without(s, k)[q]
  {
    if s[0] == k {
      i, j := WithoutOrder(s[1..], k, p, q);
      i, j := i + 1, j + 1;
    } else if p > 0 {
      i, j := WithoutOrder(s[1..], k, p - 1, q - 1);
      i, j := i + 1, j + 1;
    } else {
      WithoutIn(s[1..], k, Without(s, k)[q]);
      i := 0;
      j :| 1 <= j < |s| && s[j] == Without(s, k)[q];
    }
  }

  lemma {:induction false} RecencyOrder<K>(uses: seq<K>, p: nat, q: nat, a: nat, b: nat)
    requires p < q < |Recency(uses)|
    requires LastUse(uses, Recency(uses)[p], a) && LastUse(uses, Recency(uses)[q], b)
    ensures a < b
    decreases |uses|
  {
    var before, k := uses[..|uses| - 1], uses[|uses| - 1];
    var r := Recency(before);
    if q == |Recency(uses)| - 1 {
      WithoutIn(r, k, Recency(uses)[p]);
    } else {
      WithoutIn(r, k, Recency(uses)[p]);
      WithoutIn(r, k, Recency(uses)[q]);
      var i, j := WithoutOrder(r, k, p, q);
      RecencyOrder(before, i, j, a, b);
    }
  }

  // ---- refinement ----

  lemma {:induction false} StepKeeps<K, V>(c: Cache<K, V>, maxsize: nat, op: Op<K, V>)
    requires WellFormed(c, maxsize)
    ensures WellFormed(Step(c, maxsize, op), maxsize)
  {
    TouchDistinct(c.order, op.key);
    if op.Set? && op.key !in c.values && c.order != [] && |c.order| >= maxsize {
      var rest := c.order[1..];
      assert c.order == [c.order[0]] + rest;
      forall k | k in rest ensures k in c.order && k != c.order[0] {
        var i :| 0 <= i < |rest| && rest[i] == k;
        assert c.order[i + 1] == k;
      }
    }
    var next := Step(c, maxsize, op);
    forall k | k in next.order ensures k in next.values {
      WithoutIn(c.order, op.key, k);
    }
  }

  lemma {:induction false} RunWellFormed<K, V>(maxsize: nat, ops: seq<Op<K, V>>)
    ensures WellFormed(Run(maxsize, ops), maxsize)
  {
    if ops != [] {
      RunWellFormed(maxsize, ops[..|ops| - 1]);
      StepKeeps(Run(maxsize, ops[..|ops| - 1]), maxsize, ops[|ops| - 1]);
    }
  }

  lemma {:induction false} LastHit<K>(rest: seq<K>, last: seq<K>, k: K)
    requires Distinct(rest + last) && k in last
    ensures Touch(rest + last, k) == rest + Touch(last, k) && |Touch(last, k)| == |last|
  {
    var r := rest + last;
    var j :| 0 <= j < |last| && last[j] == k;
    forall i | 0 <= i < |rest| ensures rest[i] != k { assert r[i] != r[|rest| + j]; }
    WithoutAppend(rest, last, k);
    WithoutAbsent(rest, k);
    forall i, j | 0 <= i < j < |last| ensures last[i] != last[j] { assert r[|rest| + i] != r[|rest| + j]; }
    TouchDistinct(last, k);
  }

  // Using a key among the n last, or bringing in another one.
  lemma {:induction false} LastTouched<K>(r: seq<K>, n: nat, k: K)
    requires Distinct(r) && n >= 1
    ensures k in Last(r, n) ==> Last(Touch(r, k), n) == Touch(Last(r, n), k)
    ensures k !in Last(r, n) ==>
      Last(Touch(r, k), n) == (if |Last(r, n)| == n then Last(r, n)[1..] else Last(r, n)) + [k]
  {
    hide Without, Distinct;
    var last := Last(r, n);
    var rest := r[..|r| - |last|];
    assert r == rest + last;
    if k in last {
      LastHit(rest, last, k);
    } else {
      WithoutAppend(rest, last, k);
      WithoutAbsent(last, k);
      if rest == [] { WithoutAbsent(rest, k); }
    }
  }

  // After any history the keys, oldest first, are the maxsize most recently used ones.
  lemma {:induction false} MostRecentKept<K, V>(maxsize: nat, ops: seq<Op<K, V>>)
    requires maxsize >= 1
    ensures Run(maxsize, ops).order == Last(Recency(Touched(maxsize, ops)), maxsize)
  {
    if ops != [] {
      var before, op := ops[..|ops| - 1], ops[|ops| - 1];
      var c, uses := Run(maxsize, before), Touched(maxsize, before);
      MostRecentKept(maxsize, before);
      RunWellFormed(maxsize, before);
      RecencyKeys(uses);
      LastTouched(Recency(uses), maxsize, op.key);
      assert (uses + [op.key])[..|uses|] == uses;
    }
  }

  // The value under a key that stays in the cache never changes, whatever is set.
  lemma {:induction false} ResidentUnchanged<K, V>(c: Cache<K, V>, maxsize: nat, op: Op<K, V>, k: K)
    requires k in c.values && k in Step(c, maxsize, op).values
    ensures Step(c, maxsize, op).values[k] == c.values[k]
  {}

  // The value found is that of the set which last brought the key in: nothing put it out since.
  lemma {:induction false} ValueFrom<K, V>(maxsize: nat, ops: seq<Op<K, V>>, k: K) returns (i: nat)
    requires k in Run(maxsize, ops).values
    ensures i < |ops| && ops[i].Set? && ops[i].key == k && ops[i].value == Run(maxsize, ops).values[k]
    ensures k !in Run(maxsize, ops[..i]).values
    ensures forall j :: i < j <= |ops| ==> k in Run(maxsize, ops[..j]).values
  {
    assert ops[..|ops|] == ops;
    var before := ops[..|ops| - 1];
    if k in Run(maxsize, before).values {
      i := ValueFrom(maxsize, before, k);
      assert ops[..i] == before[..i];
      forall j | i < j <= |ops| ensures k in Run(maxsize, ops[..j]).values {
        if j < |ops| { assert ops[..j] == before[..j]; }
      }
    } else {
      i := |ops| - 1;
    }
  }

  // ---- a larger cache holds what a smaller one holds ----

  // The smaller order is the larger one, or the larger one with one key left out.
  predicate Includes<K(==)>(small: seq<K>, large: seq<K>, n: nat) {
    || (small == large && |small| <= n)
    || (|large| == n + 1 && exists e :: e in large && small == Without(large, e))
  }

  lemma {:induction false} TouchWithout<K>(s: seq<K>, e: K, k: K)
    requires e != k
    ensures Touch(Without(s, e), k) == Without(Touch(s, k), e)
  {
    WithoutTwice(s, e, k);
    WithoutAppend(Without(s, k), [k], e);
  }

  lemma {:induction false} WithoutFirst<K>(s: seq<K>)
    requires s != [] && Distinct(s)
    ensures Without(s, s[0]) == s[1..]
  {
    WithoutAbsent(s[1..], s[0]);
  }

  lemma {:induction false} IncludesStep<K, V>(a: Cache<K, V>, b: Cache<K, V>, n: nat, op: Op<K, V>)
    requires n >= 1 && WellFormed(a, n) && WellFormed(b, n + 1) && Includes(a.order, b.order, n)
    ensures Includes(Step(a, n, op).order, Step(b, n + 1, op).order, n)
  {
    var k, large := op.key, b.order;
    TouchDistinct(large, k);
    TouchDistinct(a.order, k);
    if a.order == large && |large| <= n {
      if op.Set? && k !in large && |large| == n {
        var all := large + [k];
        WithoutFirst(all);
        assert all[1..] == large[1..] + [k];
        assert all[0] in all;
      }
    } else {
      var e :| e in large && a.order == Without(large, e);
      WithoutIn(large, e, k);
      if k == e {
        if op.Set? { NewlyMoved(large, e); }
        else { WithoutEnd(large, e); }
      } else if k in large {
        TouchWithout(large, e, k);
      } else if op.Set? {
        WithoutDistinct(large, e);
        Evicted(large, e, k);
        var next := large[1..] + [k];
        assert Step(b, n + 1, op).order == next && Step(a, n, op).order == a.order[1..] + [k];
      }
    }
  }

  // A get that only the larger cache answers.
  lemma {:induction false} WithoutEnd<K>(s: seq<K>, e: K)
    requires Distinct(s) && e in s
    ensures Without(Touch(s, e), e) == Without(s, e) && e in Touch(s, e)
  {
    WithoutIn(s, e, e);
    WithoutAppend(Without(s, e), [e], e);
    WithoutAbsent(Without(s, e), e);
  }

  // A set of the one key that only the larger cache holds.
  lemma {:induction false} NewlyMoved<K>(s: seq<K>, e: K)
    requires Distinct(s) && e in s && |s| >= 2
    ensures Touch(s, e) != [] && Without(s, e) != []
    ensures Without(s, e)[1..] + [e] == Without(Touch(s, e), Touch(s, e)[0])
    ensures Touch(s, e)[0] in Touch(s, e)
  {
    TouchDistinct(s, e);
    WithoutDistinct(s, e);
    WithoutFirst(Touch(s, e));
  }

  // A key new to both.
  lemma {:induction false} Evicted<K>(s: seq<K>, e: K, k: K)
    requires Distinct(s) && e in s && k !in s && |s| >= 2
    ensures Without(s, e) != []
    ensures var small, large := Without(s, e)[1..] + [k], s[1..] + [k];
      exists x :: x in large && small == Without(large, x)
  {
    WithoutDistinct(s, e);
    var large := s[1..] + [k];
    if s[0] == e {
      WithoutFirst(s);
      assert s[1..] != [] && large[0] == s[1] && large[1..] == s[1..][1..] + [k];
      assert Distinct(large);
      WithoutFirst(large);
      assert large[0] in large;
    } else {
      assert e in s[1..];
      WithoutAppend(s[1..], [k], e);
      assert e in large && Without(s, e)[1..] == Without(s[1..], e);
    }
  }

  lemma {:induction false} Inclusion<K, V>(n: nat, ops: seq<Op<K, V>>)
    requires n >= 1
    ensures Includes(Run(n, ops).order, Run(n + 1, ops).order, n)
    ensures forall k :: k in Run(n, ops).values ==> k in Run(n + 1, ops).values
  {
    hide Without, Step, Distinct;
    RunWellFormed(n, ops);
    RunWellFormed(n + 1, ops);
    if ops != [] {
      var before := ops[..|ops| - 1];
      Inclusion(n, before);
      RunWellFormed(n, before);
      RunWellFormed(n + 1, before);
      IncludesStep(Run(n, before), Run(n + 1, before), n, ops[|ops| - 1]);
    }
    var small, large := Run(n, ops).order, Run(n + 1, ops).order;
    forall k | k in small ensures k in large {
      if small != large {
        var e :| e in large && small == Without(large, e);
        WithoutIn(large, e, k);
      }
    }
  }

  // ---- the class ----

  class L1LRUCache<K(==), V> {
    const maxsize: nat
    var order: seq<K>
    var values: map<K, V>
    ghost var history: seq<Op<K, V>>

    ghost predicate Valid()
      reads this
    {
      Cache(order, values) == Run(maxsize, history)
    }

    constructor (maxsize: int)
      ensures Valid() && history == [] && this.maxsize == if maxsize < 0 then 0 else maxsize
    {
      this.maxsize := if maxsize < 0 then 0 else maxsize;
      order, values, history := [], map[], [];
    }

    method Get(key: K) returns (val: Option<V>)
      requires Valid()
      modifies `order, `history
      ensures Valid() && history == old(history) + [Op.Get(key)]
      ensures maxsize >= 1 ==> order == Last(Recency(Touched(maxsize, history)), maxsize)
      ensures val == if maxsize >= 1 && key in old(values) then Some(old(values)[key]) else None
      // a hit moves the key to the end, a miss leaves the order
      ensures val.None? ==> order == old(order)
      ensures val.Some? ==> forall i :: 0 <= i < |old(order)| && old(order)[i] == key ==>
        order == old(order)[..i] + old(order)[i + 1..] + [key]
    {
      ghost var before := order;
      RunWellFormed(maxsize, history);
      history := history + [Op.Get(key)];
      assert history[..|history| - 1] == old(history);
      if maxsize == 0 { return None; }
      if key in values {
        forall i | 0 <= i < |before| && before[i] == key ensures Without(before, key) == before[..i] + before[i + 1..] {
          WithoutAt(before, i);
        }
        order := Without(order, key);
        order := order + [key];
        val := Some(values[key]);
      } else {
        val := None;
      }
      MostRecentKept(maxsize, history);
    }

    method Set(key: K, value: V)
      requires Valid()
      modifies `order, `values, `history
      ensures Valid() && history == old(history) + [Op.Set(key, value)]
      ensures maxsize >= 1 ==> order == Last(Recency(Touched(maxsize, history)), maxsize)
      ensures key in old(values) ==> values == old(values)
      ensures maxsize == 0 ==> values == old(values) && order == old(order)
      // a resident key only moves to the end; a new one comes last, for the oldest if there is no room
      ensures maxsize >= 1 && key in old(values) ==> forall i :: 0 <= i < |old(order)| && old(order)[i] == key ==>
        order == old(order)[..i] + old(order)[i + 1..] + [key]
      ensures maxsize >= 1 && key !in old(values) && |old(order)| < maxsize ==>
        values == old(values)[key := value] && order == old(order) + [key]
      ensures maxsize >= 1 && key !in old(values) && |old(order)| >= maxsize ==>
        values == (old(values) - {old(order)[0]})[key := value] && order == old(order)[1..] + [key]
    {
      ghost var before := order;
      RunWellFormed(maxsize, history);
      history := history + [Op.Set(key, value)];
      assert history[..|history| - 1] == old(history);
      if maxsize == 0 { return; }
      if key in values {
        forall i | 0 <= i < |before| && before[i] == key
          ensures Touch(before, key) == before[..i] + before[i + 1..] + [key]
        {
          WithoutAt(before, i);
        }
        order := Touch(order, key);
      } else {
        if |order| >= maxsize {
          values := values - {order[0]};
          order := order[1..];
        }
        order := order + [key];
        values := values[key := value];
      }
      MostRecentKept(maxsize, history);
    }
  }
}
