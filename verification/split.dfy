/**
 * Integer percentage splits: the even redistribution with the remainder
 * going to the last key, used by the party wizard's drink splits and by
 * the admin screen's recommendation weights.
 */
module Split {
  import opened Selection

  /** One `key: percentage` property of a splits/weights object, in insertion order. */
  datatype Entry<K> = Entry(key: K, pct: int)

  function Keys<K>(es: seq<Entry<K>>): seq<K> {
    seq(|es|, i requires 0 <= i < |es| => es[i].key)
  }

  /** Sum of the percentages (what the screens show as "Total: n%"). */
  function Total<K>(es: seq<Entry<K>>): int {
    if es == [] then 0 else es[0].pct + Total(es[1..])
  }

  /** Position `i` of `n` keys sharing `total`: `Math.floor(total / n)`, the last one taking what is left. */
  function Share(total: int, n: nat, i: nat): int
    requires i < n
  {
    if i == n - 1 then total - (total / n) * (n - 1) else total / n
  }

  /** The object that the redistribution loop builds over `keys`. */
  function Spread<K>(keys: seq<K>, total: int): seq<Entry<K>> {
    seq(|keys|, i requires 0 <= i < |keys| => Entry(keys[i], Share(total, |keys|, i)))
  }

  lemma {:induction false} TotalAppend<K>(a: seq<Entry<K>>, b: seq<Entry<K>>)
    ensures Total(a + b) == Total(a) + Total(b)
  {
    if a != [] {
      assert (a + b)[1..] == a[1..] + b;
      TotalAppend(a[1..], b);
    } else {
      assert a + b == b;
    }
  }

  lemma {:induction false} TotalOfEqualShares<K>(es: seq<Entry<K>>, base: int)
    requires forall e :: e in es ==> e.pct == base
    ensures Total(es) == |es| * base
  {
    if es != [] {
      assert forall e :: e in es[1..] ==> e in es;
      TotalOfEqualShares(es[1..], base);
      assert |es| * base == base + (|es| - 1) * base;
    }
  }

  lemma MulPred(a: int, n: int)
    ensures a * (n - 1) == a * n - a
  {
  }

  lemma MulGrows(a: int, n: int)
    requires 0 <= a && 1 <= n
    ensures a <= a * n
  {
    MulPred(a, n);
    if n > 1 {
      MulGrows(a, n - 1);
    }
  }

  /** The last share is the even share plus the remainder; for a non-negative total both lie in `0..total`. */
  lemma ShareBounds(total: int, n: nat)
    requires n > 0
    ensures Share(total, n, n - 1) == total / n + total % n
    ensures 0 <= total ==> 0 <= total / n <= total && total / n + total % n <= total
  {
    var base, r := total / n, total % n;
    assert total == base * n + r;
    MulPred(base, n);
    if 0 <= total {
      assert 0 <= base;
      MulGrows(base, n);
    }
  }

  /**
   * The shares of a spread over at least one key add up to the total, all
   * but the last are `total / n`, and the last is `total / n` plus the
   * remainder `total % n`; for a non-negative total each share lies in
   * `0..total`.
   */
  lemma SpreadShares<K>(keys: seq<K>, total: int)
    requires |keys| > 0
    ensures Total(Spread(keys, total)) == total
    ensures forall i :: 0 <= i < |keys| - 1 ==> Spread(keys, total)[i].pct == total / |keys|
    ensures Spread(keys, total)[|keys| - 1].pct == total / |keys| + total % |keys|
    ensures 0 <= total ==> forall e :: e in Spread(keys, total) ==> 0 <= e.pct <= total
  {
    var n, es := |keys|, Spread(keys, total);
    var base := total / n;
    ShareBounds(total, n);
    var init := es[..n - 1];
    assert es == init + [es[n - 1]];
    TotalAppend(init, [es[n - 1]]);
    assert forall e :: e in init ==> e.pct == base by {
      forall e | e in init ensures e.pct == base {
        var i :| 0 <= i < |init| && init[i] == e;
        assert es[i] == e;
      }
    }
    TotalOfEqualShares(init, base);
    assert Total([es[n - 1]]) == es[n - 1].pct;
    assert Total(es) == (n - 1) * base + Share(total, n, n - 1);
    assert (n - 1) * base + total - base * (n - 1) == total;
  }

  /**
   * The `forEach((k, i) => obj[k] = i === n - 1 ? total - base * (n - 1) : base)`
   * loop of PartyFlow's `toggleCat`, `updateSplit` and AdminPanel's
   * `updateWeight`, with `base = Math.floor(total / n)`.
   */
  method Distribute<K>(keys: seq<K>, total: int) returns (es: seq<Entry<K>>)
    ensures es == Spread(keys, total)
    ensures Keys(es) == keys
    ensures |keys| > 0 ==> Total(es) == total
    ensures 0 <= total ==> forall e :: e in es ==> 0 <= e.pct <= total
  {
    var n := |keys|;
    var base := if n > 0 then total / n else 0;  // unused when there are no keys
    es := [];
    var i := 0;
    while i < n
      invariant 0 <= i <= n
      invariant |es| == i
      invariant forall j :: 0 <= j < i ==> es[j] == Entry(keys[j], Share(total, n, j))
    {
      var share := if i == n - 1 then total - base * (n - 1) else base;
      es := es + [Entry(keys[i], share)];
      i := i + 1;
    }
    if n > 0 {
      SpreadShares(keys, total);
    }
  }

  /** `Math.max(0, Math.min(100, value))` */
  function Clamp(value: int): (v: int)
    ensures 0 <= v <= 100
    ensures 0 <= value <= 100 ==> v == value
    ensures value < 0 ==> v == 0
    ensures value > 100 ==> v == 100
  {
    if value < 0 then 0 else if value > 100 then 100 else value
  }

  /**
   * `updateSplit` / `updateWeight`: the edited key gets the clamped value and
   * comes first; every other key, in order, shares what is left of 100.
   * The result adds up to 100 as soon as one other key exists, and every
   * percentage stays in 0..100.
   */
  method Rebalance<K(==,!new)>(keys: seq<K>, changed: K, value: int) returns (es: seq<Entry<K>>)
    ensures es == [Entry(changed, Clamp(value))] + Spread(Remove(keys, changed), 100 - Clamp(value))
    ensures Keys(es) == [changed] + Remove(keys, changed)
    ensures (exists k :: k in keys && k != changed) ==> Total(es) == 100
    ensures forall e :: e in es ==> 0 <= e.pct <= 100
  {
    var v := Clamp(value);
    var others := Remove(keys, changed);
    var rest := Distribute(others, 100 - v);
    es := [Entry(changed, v)] + rest;
    assert es[1..] == rest;
    assert Keys(es) == [changed] + Keys(rest);
  }

  /** `obj[key] || 0` on the object built from `es`. */
  function Lookup<K(==)>(es: seq<Entry<K>>, key: K): int {
    if es == [] then 0 else if es[0].key == key then es[0].pct else Lookup(es[1..], key)
  }

  /**
   * With distinct keys, looking a key up gives its own percentage, and a
   * key the object does not hold reads as 0.
   */
  lemma {:induction false} LookupFinds<K(!new)>(es: seq<Entry<K>>, key: K)
    requires NoDup(Keys(es))
    ensures key !in Keys(es) ==> Lookup(es, key) == 0
    ensures forall i :: 0 <= i < |es| && es[i].key == key ==> Lookup(es, key) == es[i].pct
  {
    if es != [] {
      assert Keys(es[1..]) == Keys(es)[1..];
      assert NoDup(Keys(es[1..])) by {
        forall i, j | 0 <= i < j < |es[1..]| ensures Keys(es[1..])[i] != Keys(es[1..])[j] {
          assert Keys(es)[i + 1] != Keys(es)[j + 1];
        }
      }
      LookupFinds(es[1..], key);
      assert key !in Keys(es) ==> key !in Keys(es[1..]) && es[0].key != key by {
        assert Keys(es)[0] == es[0].key;
        assert forall k :: k in Keys(es[1..]) ==> k in Keys(es);
      }
      forall i | 0 <= i < |es| && es[i].key == key ensures Lookup(es, key) == es[i].pct {
        if i > 0 {
          assert Keys(es)[0] != Keys(es)[i];
          assert es[1..][i - 1] == es[i];
        }
      }
    }
  }
}
