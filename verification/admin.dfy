/**
 * The admin screen's state: the item settings table and the four
 * recommendation weights, edited as integer percentages that always add
 * up to 100.
 */
module Admin {
  import opened Wrappers
  import opened Selection
  import opened Split

  /** The weight keys, in the order the inputs are rendered and redistributed. */
  const WeightKeys: seq<string> := ["promotion", "hot", "aging", "new"]

  /** One row of `/api/admin/items`; the settings columns are NULL for an item never saved. */
  datatype Item = Item(
    code_num: string, name: string, price: real, size: Option<string>,
    promotion: Option<int>, hot: Option<int>, first_seen: Option<string>, last_purchase: Option<string>)

  /** `{ promotion: 1, hot: 1, aging: 1, new: 1 }`, the initial state and the non-array reply. */
  function UnitWeights(): map<string, real> {
    map["promotion" := 1.0, "hot" := 1.0, "aging" := 1.0, "new" := 1.0]
  }

  /** The weights set when the request itself fails. */
  function FailureWeights(): map<string, real> {
    map["promotion" := 1.5, "hot" := 1.3, "aging" := 1.0, "new" := 1.2]
  }

  /** Some row carries key `k`. */
  ghost predicate HasKey<V>(rows: seq<(string, V)>, k: string) {
    exists i :: 0 <= i < |rows| && rows[i].0 == k
  }

  /** Row `i` is the last row carrying its key. */
  ghost predicate LastWithKey<V>(rows: seq<(string, V)>, i: int) {
    0 <= i < |rows| && forall j :: i < j < |rows| ==> rows[j].0 != rows[i].0
  }

  /** `Object.fromEntries(rows)`: later rows overwrite earlier ones with the same key. */
  function FromEntries<V>(rows: seq<(string, V)>): map<string, V> {
    if rows == [] then map[]
    else FromEntries(rows[..|rows| - 1])[rows[|rows| - 1].0 := rows[|rows| - 1].1]
  }

  /** The keys of `Object.fromEntries(rows)` are exactly the keys of the rows. */
  lemma {:induction false} FromEntriesKey<V>(rows: seq<(string, V)>, k: string)
    ensures k in FromEntries(rows) <==> HasKey(rows, k)
  {
    if rows != [] {
      var init, last := rows[..|rows| - 1], rows[|rows| - 1];
      FromEntriesKey(init, k);
      if k == last.0 {
        assert rows[|rows| - 1].0 == k;
      } else if HasKey(init, k) {
        var i :| 0 <= i < |init| && init[i].0 == k;
        assert rows[i].0 == k;
      } else {
        forall i | 0 <= i < |rows| ensures rows[i].0 != k {
          if i < |init| {
            assert init[i] == rows[i];
          }
        }
      }
    }
  }

  /** Each key of `Object.fromEntries(rows)` holds the value of its last row. */
  lemma {:induction false} FromEntriesLast<V>(rows: seq<(string, V)>, i: int)
    requires LastWithKey(rows, i)
    ensures rows[i].0 in FromEntries(rows) && FromEntries(rows)[rows[i].0] == rows[i].1
  {
    var init, last := rows[..|rows| - 1], rows[|rows| - 1];
    if i < |init| {
      assert init[i] == rows[i];
      assert rows[i].0 != last.0;
      assert LastWithKey(init, i) by {
        forall j | i < j < |init| ensures init[j].0 != init[i].0 {
          assert init[j] == rows[j];
        }
      }
      FromEntriesLast(init, i);
    }
  }

  /** The weights after the `/api/admin/weights` request settles. */
  function WeightsFrom(reply: Response<(string, real)>): map<string, real> {
    match reply
    case Array(rows) => FromEntries(rows)
    case NotArray => UnitWeights()
    case Failed => FailureWeights()
  }

  /**
   * `Object.keys(Object.fromEntries(rows))`: each key once, in the order of
   * its first row.
   */
  function FirstKeys<V>(rows: seq<(string, V)>): (keys: seq<string>)
    ensures forall k :: k in keys <==> HasKey(rows, k)
  {
    if rows == [] then []
    else
      var init, last := rows[..|rows| - 1], rows[|rows| - 1];
      var ks := FirstKeys(init);
      assert forall k :: HasKey(rows, k) <==> HasKey(init, k) || k == last.0 by {
        forall k ensures HasKey(rows, k) <==> HasKey(init, k) || k == last.0 {
          if HasKey(init, k) {
            var i :| 0 <= i < |init| && init[i].0 == k;
            assert rows[i].0 == k;
          }
          if HasKey(rows, k) && k != last.0 {
            var i :| 0 <= i < |rows| && rows[i].0 == k;
            assert init[i].0 == k;
          }
        }
      }
      if last.0 in ks then ks else ks + [last.0]
  }

  /** No key of the weight object is listed twice. */
  lemma {:induction false} FirstKeysDistinct<V>(rows: seq<(string, V)>)
    ensures NoDup(FirstKeys(rows))
  {
    if rows != [] {
      var init, last := rows[..|rows| - 1], rows[|rows| - 1];
      FirstKeysDistinct(init);
      var ks := FirstKeys(init);
      if last.0 !in ks {
        forall i, j | 0 <= i < j < |ks + [last.0]| ensures (ks + [last.0])[i] != (ks + [last.0])[j] {
          if j == |ks| {
            assert (ks + [last.0])[i] == ks[i];
          }
        }
      }
    }
  }

  /** `Math.round(x)`: the nearest integer, halves rounded up. */
  function Round(x: real): (r: int)
    ensures x - 0.5 < r as real <= x + 0.5
  {
    (x + 0.5).Floor
  }

  /** `Object.values(weights).reduce((sum, val) => sum + val, 0)` over `keys`. */
  function SumOver(m: map<string, real>, keys: seq<string>): real
    requires forall k :: k in keys ==> k in m
  {
    if keys == [] then 0.0 else m[keys[0]] + SumOver(m, keys[1..])
  }

  /**
   * `Math.round((w / total) * 100)`. A zero total gives `NaN` or an infinity,
   * which the input shows as text and the total line reads as 0.
   */
  function PercentOf(w: real, total: real): int {
    if total == 0.0 then 0 else Round(ExactShare(w, total))
  }

  /** `(w / total) * 100` without rounding. */
  function ExactShare(w: real, total: real): real
    requires total != 0.0
  {
    w / total * 100.0
  }

  lemma ExactShareAdds(a: real, b: real, total: real)
    requires total != 0.0
    ensures ExactShare(a + b, total) == ExactShare(a, total) + ExactShare(b, total)
  {
  }

  lemma ExactShareOfWhole(total: real)
    requires total != 0.0
    ensures ExactShare(total, total) == 100.0
  {
    assert total / total == 1.0;
  }

  /** The exact shares of the weights under `keys`. */
  function ExactShares(m: map<string, real>, keys: seq<string>, total: real): real
    requires forall k :: k in keys ==> k in m
    requires total != 0.0
  {
    if keys == [] then 0.0 else ExactShare(m[keys[0]], total) + ExactShares(m, keys[1..], total)
  }

  /** The exact shares of all the weights of a sum make up 100 of it. */
  lemma {:induction false} ExactSharesOfSum(m: map<string, real>, keys: seq<string>, total: real)
    requires forall k :: k in keys ==> k in m
    requires total != 0.0
    ensures ExactShares(m, keys, total) == ExactShare(SumOver(m, keys), total)
  {
    if keys != [] {
      ExactSharesOfSum(m, keys[1..], total);
      ExactShareAdds(m[keys[0]], SumOver(m, keys[1..]), total);
    }
  }

  /** Each key with its percentage of `total`. */
  function PercentsOf(m: map<string, real>, keys: seq<string>, total: real): (es: seq<Entry<string>>)
    requires forall k :: k in keys ==> k in m
    ensures Keys(es) == keys
    ensures forall i :: 0 <= i < |keys| ==> es[i].pct == PercentOf(m[keys[i]], total)
  {
    seq(|keys|, i requires 0 <= i < |keys| => Entry(keys[i], PercentOf(m[keys[i]], total)))
  }

  /** The percentage inputs derived from loaded weights: each weight's share of their sum. */
  function PercentInputs(m: map<string, real>, keys: seq<string>): seq<Entry<string>>
    requires forall k :: k in keys ==> k in m
  {
    PercentsOf(m, keys, SumOver(m, keys))
  }

  /**
   * Each rounded percentage is within half a point of the exact share, so
   * over `n` keys the inputs add up to within `n / 2` of the exact sum.
   */
  lemma {:induction false} RoundingDrift(m: map<string, real>, keys: seq<string>, total: real)
    requires forall k :: k in keys ==> k in m
    requires total != 0.0
    ensures var drift := Total(PercentsOf(m, keys, total)) as real - ExactShares(m, keys, total);
            keys == [] || -(|keys| as real) * 0.5 < drift <= (|keys| as real) * 0.5
  {
    if keys != [] {
      var es := PercentsOf(m, keys, total);
      assert es[1..] == PercentsOf(m, keys[1..], total);
      RoundingDrift(m, keys[1..], total);
    }
  }

  /** The percentage inputs set when the weights request settles. */
  function InputsFrom(reply: Response<(string, real)>): seq<Entry<string>> {
    match reply
    case Array(rows) =>
      forall k | k in FirstKeys(rows) ensures k in FromEntries(rows) {
        FromEntriesKey(rows, k);
      }
      PercentInputs(FromEntries(rows), FirstKeys(rows))
    case NotArray => PercentInputs(UnitWeights(), WeightKeys)
    case Failed => PercentInputs(FailureWeights(), WeightKeys)
  }

  /**
   * Loaded weights with a non-zero sum show percentages adding up to 100
   * only up to rounding: within half a point per key.
   */
  lemma LoadedPercentsNear100(m: map<string, real>, keys: seq<string>)
    requires forall k :: k in keys ==> k in m
    requires keys != [] && SumOver(m, keys) != 0.0
    ensures -(|keys| as real) * 0.5 < Total(PercentInputs(m, keys)) as real - 100.0 <= (|keys| as real) * 0.5
  {
    var total := SumOver(m, keys);
    RoundingDrift(m, keys, total);
    ExactSharesOfSum(m, keys, total);
    ExactShareOfWhole(total);
  }

  /** Three equal weights show 33% each: the total line reads 99%. */
  lemma EqualThirdsShow99()
    ensures Total(InputsFrom(Array([("promotion", 1.0), ("hot", 1.0), ("aging", 1.0)]))) == 99
  {
    var rows := [("promotion", 1.0), ("hot", 1.0), ("aging", 1.0)];
    assert FirstKeys(rows[..1]) == ["promotion"];
    assert FirstKeys(rows[..2]) == ["promotion", "hot"];
    assert FirstKeys(rows) == ["promotion", "hot", "aging"];
    assert FromEntries(rows[..1]) == map["promotion" := 1.0];
    assert FromEntries(rows[..2]) == map["promotion" := 1.0, "hot" := 1.0];
    assert FromEntries(rows) == map["promotion" := 1.0, "hot" := 1.0, "aging" := 1.0];
    assert Round(1.0 / 3.0 * 100.0) == 33;
  }

  /** The default and the fallback weights both show percentages adding up to exactly 100. */
  lemma DefaultPercents()
    ensures InputsFrom(NotArray) == [Entry("promotion", 25), Entry("hot", 25), Entry("aging", 25), Entry("new", 25)]
    ensures InputsFrom(Failed) == [Entry("promotion", 30), Entry("hot", 26), Entry("aging", 20), Entry("new", 24)]
    ensures Total(InputsFrom(NotArray)) == Total(InputsFrom(Failed)) == 100
  {
    assert SumOver(UnitWeights(), WeightKeys) == 4.0;
    assert SumOver(FailureWeights(), WeightKeys) == 5.0;
    assert Round(1.0 / 4.0 * 100.0) == 25;
    assert Round(1.5 / 5.0 * 100.0) == 30 && Round(1.3 / 5.0 * 100.0) == 26;
    assert Round(1.0 / 5.0 * 100.0) == 20 && Round(1.2 / 5.0 * 100.0) == 24;
  }

  /** `percentage / 100` */
  function WeightOf(pct: int): real {
    pct as real / 100.0
  }

  /** The `[key, percentage / 100]` pairs of the inputs. */
  function WeightRows(inputs: seq<Entry<string>>): (rows: seq<(string, real)>)
    ensures |rows| == |inputs|
    ensures forall i :: 0 <= i < |inputs| ==> rows[i] == (inputs[i].key, WeightOf(inputs[i].pct))
  {
    seq(|inputs|, i requires 0 <= i < |inputs| => (inputs[i].key, WeightOf(inputs[i].pct)))
  }

  /** `newWeights`: the weight object built beside the percentage inputs. */
  function WeightsOf(inputs: seq<Entry<string>>): map<string, real> {
    FromEntries(WeightRows(inputs))
  }

  /**
   * The weight object has exactly the inputs' keys, and when no key repeats
   * each weight is its input's percentage divided by 100.
   */
  lemma WeightsOfInputs(inputs: seq<Entry<string>>)
    ensures forall k :: k in WeightsOf(inputs) <==> k in Keys(inputs)
    ensures NoDup(Keys(inputs)) ==>
              forall i :: 0 <= i < |inputs| ==>
                inputs[i].key in WeightsOf(inputs) && WeightsOf(inputs)[inputs[i].key] == WeightOf(inputs[i].pct)
  {
    var rows := WeightRows(inputs);
    forall k ensures k in WeightsOf(inputs) <==> k in Keys(inputs) {
      FromEntriesKey(rows, k);
      if k in Keys(inputs) {
        var i :| 0 <= i < |inputs| && Keys(inputs)[i] == k;
        assert rows[i].0 == k;
      }
      if HasKey(rows, k) {
        var i :| 0 <= i < |rows| && rows[i].0 == k;
        assert Keys(inputs)[i] == k;
      }
    }
    if NoDup(Keys(inputs)) {
      forall i | 0 <= i < |inputs|
        ensures inputs[i].key in WeightsOf(inputs) && WeightsOf(inputs)[inputs[i].key] == WeightOf(inputs[i].pct)
      {
        assert LastWithKey(rows, i) by {
          forall j | i < j < |rows| ensures rows[j].0 != rows[i].0 {
            assert Keys(inputs)[i] != Keys(inputs)[j];
          }
        }
        FromEntriesLast(rows, i);
      }
    }
  }

  /** `!!it.promotion`: what a settings checkbox shows. */
  function Checked(flag: Option<int>): bool {
    flag.Some? && flag.value != 0
  }

  /** `e.target.checked ? 1 : 0` */
  function FlagOf(checked: bool): int {
    if checked then 1 else 0
  }

  /** `it.first_seen?.slice(0, 10) || ''`: what a date input shows. */
  function ShownDate(date: Option<string>): string {
    match date
    case None => ""
    case Some(s) => if |s| <= 10 then s else s[..10]
  }

  /** A checkbox edit is shown back as clicked, and a picked `yyyy-mm-dd` date as picked. */
  lemma EditsShowBack(checked: bool, date: string)
    requires |date| <= 10
    ensures Checked(Some(FlagOf(checked))) == checked
    ensures ShownDate(Some(date)) == date
  {
  }

  /**
   * Editing one of the four weights: the three others share what is left,
   * `Math.floor(remaining / 3)` each except the last in key order, which
   * takes `remaining - 2 * base`.
   */
  lemma {:induction false} OtherWeightShares(keyChanged: string, value: int)
    requires keyChanged in WeightKeys
    ensures var others := Spread(Remove(WeightKeys, keyChanged), 100 - Clamp(value));
            && |others| == 3
            && others[0].pct == others[1].pct == (100 - Clamp(value)) / 3
            && others[2].pct == 100 - Clamp(value) - 2 * ((100 - Clamp(value)) / 3)
  {
    WeightKeysDistinct();
    RemoveDropsOne(WeightKeys, keyChanged);
    EvenSplitOfThree(Remove(WeightKeys, keyChanged), 100 - Clamp(value));
  }

  /** Three keys sharing `total`: `floor(total / 3)` twice, the rest last. */
  lemma EvenSplitOfThree(keys: seq<string>, total: int)
    requires |keys| == 3
    ensures var es := Spread(keys, total);
            && |es| == 3
            && es[0].pct == es[1].pct == total / 3
            && es[2].pct == total - 2 * (total / 3)
  {
  }

  /** The rebalanced weight keys are distinct, and at least one key besides the edited one exists. */
  lemma RebalancedKeys(keyChanged: string)
    ensures NoDup([keyChanged] + Remove(WeightKeys, keyChanged))
    ensures exists k :: k in WeightKeys && k != keyChanged
  {
    WeightKeysDistinct();
    MoveToFrontKeepsNoDup(WeightKeys, keyChanged);
    var other := if keyChanged != WeightKeys[0] then WeightKeys[0] else WeightKeys[1];
    assert other in WeightKeys && other != keyChanged;
  }

  lemma WeightKeysDistinct()
    ensures NoDup(WeightKeys)
  {
  }

  class AdminPanel {
    var items: seq<Item>
    var weights: map<string, real>
    var weightInputs: seq<Entry<string>>

    /** The initial state; the empty-string inputs show and count as 0. */
    constructor ()
      ensures items == [] && weights == UnitWeights()
      ensures weightInputs == [Entry("promotion", 0), Entry("hot", 0), Entry("aging", 0), Entry("new", 0)]
    {
      items := [];
      weights := UnitWeights();
      weightInputs := [Entry("promotion", 0), Entry("hot", 0), Entry("aging", 0), Entry("new", 0)];
    }

    /** The items request settled: its array, or no items for anything else. */
    method LoadItems(reply: Response<Item>)
      modifies this`items
      ensures items == ListOrEmpty(reply)
      ensures !reply.Array? ==> items == []
    {
      items := ListOrEmpty(reply);
    }

    /**
     * The weights request settled: the weights and, derived from them, the
     * percentage inputs (one per weight key, in the weight object's order).
     */
    method LoadWeights(reply: Response<(string, real)>)
      modifies this`weights, this`weightInputs
      ensures weights == WeightsFrom(reply)
      ensures weightInputs == InputsFrom(reply)
      ensures forall k :: k in Keys(weightInputs) <==> k in weights
    {
      weights := WeightsFrom(reply);
      weightInputs := InputsFrom(reply);
      forall k ensures k in Keys(weightInputs) <==> k in weights {
        if reply.Array? {
          FromEntriesKey(reply.elems, k);
        }
      }
    }

    /**
     * `updateWeight(keyChanged, value)`: the percentages are redistributed
     * over the four keys and add up to 100, each in 0..100, and every
     * stored weight is its percentage divided by 100.
     */
    method UpdateWeight(keyChanged: string, value: int)
      modifies this`weightInputs, this`weights
      ensures weightInputs == [Entry(keyChanged, Clamp(value))] + Spread(Remove(WeightKeys, keyChanged), 100 - Clamp(value))
      ensures Total(weightInputs) == 100
      ensures forall e :: e in weightInputs ==> 0 <= e.pct <= 100
      ensures weights == WeightsOf(weightInputs)
      ensures forall k :: k in weights <==> k == keyChanged || k in WeightKeys
      ensures forall i :: 0 <= i < |weightInputs| ==> weights[weightInputs[i].key] == WeightOf(weightInputs[i].pct)
    {
      weightInputs := Rebalance(WeightKeys, keyChanged, value);
      RebalancedKeys(keyChanged);
      weights := WeightsOf(weightInputs);
      WeightsOfInputs(weightInputs);
    }

    /** The promotion checkbox of row `i`: only that field of that row changes. */
    method SetPromotion(i: int, checked: bool)
      requires 0 <= i < |items|
      modifies this`items
      ensures items == old(items)[i := old(items)[i].(promotion := Some(FlagOf(checked)))]
    {
      items := items[i := items[i].(promotion := Some(FlagOf(checked)))];
    }

    /** The hot checkbox of row `i`. */
    method SetHot(i: int, checked: bool)
      requires 0 <= i < |items|
      modifies this`items
      ensures items == old(items)[i := old(items)[i].(hot := Some(FlagOf(checked)))]
    {
      items := items[i := items[i].(hot := Some(FlagOf(checked)))];
    }

    /** The first-seen date input of row `i`. */
    method SetFirstSeen(i: int, date: string)
      requires 0 <= i < |items|
      modifies this`items
      ensures items == old(items)[i := old(items)[i].(first_seen := Some(date))]
    {
      items := items[i := items[i].(first_seen := Some(date))];
    }

    /** The last-purchase date input of row `i`. */
    method SetLastPurchase(i: int, date: string)
      requires 0 <= i < |items|
      modifies this`items
      ensures items == old(items)[i := old(items)[i].(last_purchase := Some(date))]
    {
      items := items[i := items[i].(last_purchase := Some(date))];
    }
  }
}
