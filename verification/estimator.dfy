/**
 * The quantity part of PartyFlow's `compute`: two drinks per guest per
 * hour, split by category percentage and rounded up to whole 12-packs
 * (Beer, RTD) or 5-serving 750 ml bottles (Wine). Arithmetic is exact:
 * `Math.ceil(total * (pct / 100) / 12)` is `CeilDiv(total * pct, 1200)`.
 */
module Estimator {
  import opened Wrappers
  import opened Categories
  import opened Selection
  import opened Split

  /** `{quantity, unit, size, totalServings}` for one category. */
  datatype Quantity = Quantity(quantity: int, unit: string, size: string, totalServings: int)

  /** `Math.ceil(a / b)`: the least whole number `q` with `a <= q * b`. */
  function CeilDiv(a: int, b: int): (q: int)
    requires b > 0
    ensures (q - 1) * b < a <= q * b
  {
    var f := (-a) / b;
    assert -a == f * b + (-a) % b;
    assert (-f - 1) * b == -f * b - b;
    -f
  }

  /** `parseInt(x, 10) || 0` on a field already parsed: an empty or unparsable field reads as 0. */
  function CountOrZero(field: Option<int>): int {
    field.GetOr(0)
  }

  /** `g * h * 2`: two drinks per guest per hour. */
  function TotalDrinks(guests: Option<int>, hours: Option<int>): int {
    CountOrZero(guests) * CountOrZero(hours) * 2
  }

  /** Servings in one purchasable unit. */
  function ServingsPerUnit(c: Category): nat {
    match c
    case Beer => 12
    case Wine => 5
    case RTD => 12
  }

  function UnitLabel(c: Category): string {
    match c
    case Beer => "12-packs"
    case Wine => "bottles"
    case RTD => "12-packs"
  }

  function SizeLabel(c: Category): string {
    match c
    case Beer => "12 oz cans/bottles"
    case Wine => "750ml bottles"
    case RTD => "12 oz cans"
  }

  /**
   * `out[c]` for `total` drinks of which `split` percent are `c`: the
   * servings `total * split / 100` rounded up, and the fewest units that
   * hold them.
   */
  function QuantityFor(c: Category, total: int, split: int): (q: Quantity)
    ensures (q.totalServings - 1) * 100 < total * split <= q.totalServings * 100
    ensures (q.quantity - 1) * (100 * ServingsPerUnit(c)) < total * split <= q.quantity * (100 * ServingsPerUnit(c))
    ensures q.unit == UnitLabel(c) && q.size == SizeLabel(c)
  {
    Quantity(CeilDiv(total * split, 100 * ServingsPerUnit(c)), UnitLabel(c), SizeLabel(c), CeilDiv(total * split, 100))
  }

  lemma MulAssoc(a: int, b: int, c: int)
    ensures a * (b * c) == (a * b) * c
  {
  }

  lemma MulMonotone(a: int, b: int, c: int)
    requires a <= b && 0 <= c
    ensures a * c <= b * c
  {
    assert b * c - a * c == (b - a) * c;
  }

  /**
   * The units bought hold every serving, and never a whole unit more than
   * needed: `totalServings <= quantity * perUnit < totalServings + perUnit`.
   */
  lemma UnitsCoverServings(c: Category, total: int, split: int)
    ensures QuantityFor(c, total, split).totalServings <= QuantityFor(c, total, split).quantity * ServingsPerUnit(c)
    ensures (QuantityFor(c, total, split).quantity - 1) * ServingsPerUnit(c) < QuantityFor(c, total, split).totalServings
  {
    var q := QuantityFor(c, total, split);
    var s, t := ServingsPerUnit(c), total * split;
    MulAssoc(q.quantity, s, 100);
    MulAssoc(q.quantity - 1, s, 100);
    // q.quantity * s is a whole number of servings covering t, and q.totalServings is the least such
    if q.quantity * s < q.totalServings {
      MulMonotone(q.quantity * s, q.totalServings - 1, 100);
      assert false;
    }
    if (q.quantity - 1) * s >= q.totalServings {
      MulMonotone(q.totalServings, (q.quantity - 1) * s, 100);
      assert false;
    }
  }

  /** With no guests or no hours every category needs nothing. */
  lemma NoGuestsNoDrinks(c: Category, guests: Option<int>, hours: Option<int>, split: int)
    requires CountOrZero(guests) == 0 || CountOrZero(hours) == 0
    ensures QuantityFor(c, TotalDrinks(guests, hours), split).quantity == 0
    ensures QuantityFor(c, TotalDrinks(guests, hours), split).totalServings == 0
  {
    assert TotalDrinks(guests, hours) == 0;
  }

  /** Sum of the rounded-up servings over a split list. */
  function ServingsSum(splits: seq<Entry<Category>>, total: int): int {
    if splits == [] then 0 else QuantityFor(splits[0].key, total, splits[0].pct).totalServings + ServingsSum(splits[1..], total)
  }

  /**
   * Rounding up never leaves a guest short: the servings of all categories
   * together cover `total * (sum of percentages) / 100`, so at least the
   * whole party when the splits add up to 100.
   */
  lemma {:induction false} ServingsCoverParty(splits: seq<Entry<Category>>, total: int)
    ensures ServingsSum(splits, total) * 100 >= total * Total(splits)
    ensures Total(splits) == 100 ==> ServingsSum(splits, total) >= total
  {
    if splits != [] {
      ServingsCoverParty(splits[1..], total);
      var p, rest := splits[0].pct, Total(splits[1..]);
      assert total * (p + rest) == total * p + total * rest;
      assert ServingsSum(splits, total) * 100
          == QuantityFor(splits[0].key, total, p).totalServings * 100 + ServingsSum(splits[1..], total) * 100;
    }
  }

  /** The `out` object of `compute`: each selected category's quantity for its split (`splits[c] || 0`). */
  function Quantities(cats: seq<Category>, splits: seq<Entry<Category>>, guests: Option<int>, hours: Option<int>)
    : map<Category, Quantity>
  {
    map c | c in cats :: QuantityFor(c, TotalDrinks(guests, hours), Lookup(splits, c))
  }

  /**
   * `compute`'s `cats.forEach` loop: one entry per selected category and no
   * other, each the quantity for that category's split (`splits[c] || 0`).
   */
  method ComputeQuantities(cats: seq<Category>, splits: seq<Entry<Category>>, guests: Option<int>, hours: Option<int>)
    returns (out: map<Category, Quantity>)
    ensures out == Quantities(cats, splits, guests, hours)
    ensures out.Keys == set c | c in cats
    ensures forall c :: c in out ==> out[c] == QuantityFor(c, TotalDrinks(guests, hours), Lookup(splits, c))
    ensures CountOrZero(guests) == 0 || CountOrZero(hours) == 0 ==>
              forall c :: c in out ==> out[c].quantity == 0 && out[c].totalServings == 0
  {
    var g := CountOrZero(guests);
    var h := CountOrZero(hours);
    var total := g * h * 2;
    out := map[];
    var i := 0;
    while i < |cats|
      invariant 0 <= i <= |cats|
      invariant out.Keys == set j | 0 <= j < i :: cats[j]
      invariant forall c :: c in out ==> out[c] == QuantityFor(c, total, Lookup(splits, c))
    {
      var c := cats[i];
      var pct := Lookup(splits, c);
      out := out[c := QuantityFor(c, total, pct)];
      i := i + 1;
    }
    assert (set j | 0 <= j < |cats| :: cats[j]) == set c | c in cats;
    forall c | c in out && (g == 0 || h == 0)
      ensures out[c].quantity == 0 && out[c].totalServings == 0
    {
      NoGuestsNoDrinks(c, guests, hours, Lookup(splits, c));
    }
  }

  /** The servings of the categories `cs` in a results object, added up in the order of `cs`. */
  function ServingsOver(q: map<Category, Quantity>, cs: seq<Category>): int
    requires forall c :: c in cs ==> c in q
  {
    if cs == [] then 0 else q[cs[0]].totalServings + ServingsOver(q, cs[1..])
  }

  /** In a duplicate-free list, one category's servings can be taken out of the sum. */
  lemma {:induction false} ServingsOverRemove(q: map<Category, Quantity>, cs: seq<Category>, x: Category)
    requires forall c :: c in cs ==> c in q
    requires NoDup(cs) && x in cs
    ensures ServingsOver(q, cs) == q[x].totalServings + ServingsOver(q, Remove(cs, x))
  {
    assert NoDup(cs[1..]) by {
      forall i, j | 0 <= i < j < |cs[1..]| ensures cs[1..][i] != cs[1..][j] {
        assert cs[1..][i] == cs[i + 1] && cs[1..][j] == cs[j + 1];
      }
    }
    if cs[0] == x {
      assert x !in cs[1..] by {
        forall j | 0 <= j < |cs[1..]| ensures cs[1..][j] != x {
          assert cs[1..][j] == cs[j + 1];
        }
      }
    } else {
      assert x in cs[1..] by {
        var k :| 0 <= k < |cs| && cs[k] == x;
        assert cs[1..][k - 1] == x;
      }
      ServingsOverRemove(q, cs[1..], x);
      var r := Remove(cs, x);
      assert r == [cs[0]] + Remove(cs[1..], x);
      assert r[1..] == Remove(cs[1..], x);
    }
  }

  /** The sum does not depend on the order the categories are listed in. */
  lemma {:induction false} ServingsOverReordered(q: map<Category, Quantity>, a: seq<Category>, b: seq<Category>)
    requires forall c :: c in a ==> c in q
    requires NoDup(a) && NoDup(b) && (forall c :: c in a <==> c in b)
    ensures ServingsOver(q, a) == ServingsOver(q, b)
  {
    if a != [] {
      var x := a[0];
      ServingsOverRemove(q, b, x);
      RemoveKeepsNoDup(b, x);
      assert NoDup(a[1..]) by {
        forall i, j | 0 <= i < j < |a[1..]| ensures a[1..][i] != a[1..][j] {
          assert a[1..][i] == a[i + 1] && a[1..][j] == a[j + 1];
        }
      }
      forall c ensures c in a[1..] <==> c in Remove(b, x) {
        if c in a[1..] {
          var k :| 0 <= k < |a[1..]| && a[1..][k] == c;
          assert a[k + 1] == c && a[0] != a[k + 1];
        }
        if c in a && c != x {
          var k :| 0 <= k < |a| && a[k] == c;
          assert k != 0;
          assert a[1..][k - 1] == c;
        }
      }
      ServingsOverReordered(q, a[1..], Remove(b, x));
    }
  }

  /** Summing a results object along the split entries gives the servings of the split list. */
  lemma {:induction false} ServingsOverSplits(q: map<Category, Quantity>, splits: seq<Entry<Category>>, total: int)
    requires forall i :: 0 <= i < |splits| ==>
               splits[i].key in q && q[splits[i].key].totalServings == QuantityFor(splits[i].key, total, splits[i].pct).totalServings
    ensures forall c :: c in Keys(splits) ==> c in q
    ensures ServingsOver(q, Keys(splits)) == ServingsSum(splits, total)
  {
    forall c | c in Keys(splits) ensures c in q {
      var i :| 0 <= i < |splits| && Keys(splits)[i] == c;
    }
    if splits != [] {
      assert Keys(splits[1..]) == Keys(splits)[1..];
      ServingsOverSplits(q, splits[1..], total);
    }
  }

  /**
   * What `compute` shows covers the party: with one split per selected
   * category and no key twice, the servings of the results object add up
   * to the servings of the split list, so to at least every drink when
   * the splits add up to 100.
   */
  lemma ComputedServingsCoverParty(cats: seq<Category>, splits: seq<Entry<Category>>, guests: Option<int>, hours: Option<int>)
    requires NoDup(cats) && NoDup(Keys(splits))
    requires forall c :: c in Keys(splits) <==> c in cats
    ensures forall c :: c in cats ==> c in Quantities(cats, splits, guests, hours)
    ensures ServingsOver(Quantities(cats, splits, guests, hours), cats) == ServingsSum(splits, TotalDrinks(guests, hours))
    ensures Total(splits) == 100 ==> ServingsOver(Quantities(cats, splits, guests, hours), cats) >= TotalDrinks(guests, hours)
  {
    var q, total := Quantities(cats, splits, guests, hours), TotalDrinks(guests, hours);
    forall i | 0 <= i < |splits|
      ensures splits[i].key in q && q[splits[i].key].totalServings == QuantityFor(splits[i].key, total, splits[i].pct).totalServings
    {
      assert Keys(splits)[i] == splits[i].key;
      LookupFinds(splits, splits[i].key);
    }
    ServingsOverSplits(q, splits, total);
    ServingsOverReordered(q, cats, Keys(splits));
    ServingsCoverParty(splits, total);
  }

  /** The party of 20 guests for 4 hours, all beer: 160 servings in 14 twelve-packs. */
  lemma TwentyGuestsFourHoursOfBeer()
    ensures TotalDrinks(Some(20), Some(4)) == 160
    ensures QuantityFor(Beer, 160, 100).quantity == 14
    ensures QuantityFor(Beer, 160, 100).totalServings == 160
  {
  }
}
