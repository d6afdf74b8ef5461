/**
 * The two chat wizards of the frontend: "for myself" (categories, budget,
 * preferences, results) and "party" (party size, drinks, split, results).
 * Each React component's state is a class; its event handlers are the
 * methods, and the pure state updaters they pass to the setters are the
 * functions below. API replies are parameters.
 */
module Wizard {
  import opened Wrappers
  import opened Selection
  import opened Split
  import opened Categories
  import opened Estimator

  /** A recommendation card as the backend sends it. */
  datatype Rec = Rec(id: string, name: string, price: real, img: string)

  /** `prev[c] || []` */
  function TagsOf(selected: map<Category, seq<string>>, c: Category): seq<string> {
    if c in selected then selected[c] else []
  }

  /**
   * `toggleTag(category, tag)`: the tag flips in that category's list and
   * nothing else changes; the category gets an entry if it had none.
   */
  function ToggledTags(selected: map<Category, seq<string>>, c: Category, tag: string): (r: map<Category, seq<string>>)
    ensures r.Keys == selected.Keys + {c}
    ensures forall d :: d in selected && d != c ==> r[d] == selected[d]
    ensures tag in r[c] <==> tag !in TagsOf(selected, c)
    ensures forall t :: t != tag ==> (t in r[c] <==> t in TagsOf(selected, c))
  {
    selected[c := Toggle(TagsOf(selected, c), tag)]
  }

  /** Toggling a tag twice gives back the category's list; other categories never move. */
  lemma ToggleTagTwice(selected: map<Category, seq<string>>, c: Category, tag: string)
    requires tag !in TagsOf(selected, c)
    ensures TagsOf(ToggledTags(ToggledTags(selected, c, tag), c, tag), c) == TagsOf(selected, c)
    ensures forall d :: d != c ==> TagsOf(ToggledTags(ToggledTags(selected, c, tag), c, tag), d) == TagsOf(selected, d)
  {
    ToggleTwiceRestores(TagsOf(selected, c), tag);
  }

  /** `prev[cat].map((x, i) => i === idx ? item : x)` */
  function Replace<T>(list: seq<T>, idx: int, item: T): seq<T> {
    seq(|list|, i requires 0 <= i < |list| => if i == idx then item else list[i])
  }

  /**
   * `swapOne(cat, idx)`'s update: when the reply is a non-empty array its
   * first item takes position `idx` of `cat`'s list (or becomes the whole
   * list when `cat` had none); any other reply changes nothing.
   */
  function Swapped<T>(recs: map<Category, seq<T>>, cat: Category, idx: int, reply: Response<T>): (r: map<Category, seq<T>>)
    ensures !(reply.Array? && |reply.elems| > 0) ==> r == recs
    ensures reply.Array? && |reply.elems| > 0 ==>
              && r.Keys == recs.Keys + {cat}
              && (forall d :: d in recs && d != cat ==> r[d] == recs[d])
              && (cat !in recs ==> r[cat] == [reply.elems[0]])
              && (cat in recs ==>
                    && |r[cat]| == |recs[cat]|
                    && (forall i :: 0 <= i < |recs[cat]| && i != idx ==> r[cat][i] == recs[cat][i])
                    && (0 <= idx < |recs[cat]| ==> r[cat][idx] == reply.elems[0]))
  {
    if reply.Array? && |reply.elems| > 0 then
      var item := reply.elems[0];
      recs[cat := if cat in recs then Replace(recs[cat], idx, item) else [item]]
    else
      recs
  }

  /** Swapping the old card back in undoes a swap. */
  lemma SwapBack<T>(recs: map<Category, seq<T>>, cat: Category, idx: int, item: T)
    requires cat in recs && 0 <= idx < |recs[cat]|
    ensures Swapped(Swapped(recs, cat, idx, Array([item])), cat, idx, Array([recs[cat][idx]])) == recs
  {
    var once := Swapped(recs, cat, idx, Array([item]));
    var twice := Swapped(once, cat, idx, Array([recs[cat][idx]]));
    assert twice[cat] == recs[cat];
    assert twice.Keys == recs.Keys;
  }

  /** `out[c] = Array.isArray(data) ? data : []` for every selected category. */
  function RecsFrom(cats: seq<Category>, replies: map<Category, Response<Rec>>): (recs: map<Category, seq<Rec>>)
    ensures recs.Keys == set c | c in cats
    ensures forall c :: c in recs && c in replies && replies[c].Array? ==> recs[c] == replies[c].elems
    ensures forall c :: c in recs && !(c in replies && replies[c].Array?) ==> recs[c] == []
  {
    map c | c in cats :: if c in replies then ListOrEmpty(replies[c]) else []
  }

  /** `customBudget ? +customBudget : budget`: a filled-in custom budget, even 0, wins over the slider. */
  function MaxSpend(budget: int, customBudget: Option<int>): (m: int)
    ensures customBudget.Some? ==> m == customBudget.value
    ensures customBudget.None? ==> m == budget
  {
    customBudget.GetOr(budget)
  }

  /** State of the "for myself" wizard. */
  class MyselfFlow {
    var step: int
    var cats: seq<Category>
    var budget: int
    var customBudget: Option<int>
    var recs: map<Category, seq<Rec>>
    var categoryTags: map<Category, seq<string>>
    var selectedTags: map<Category, seq<string>>
    var activeTab: Option<Category>

    ghost predicate Valid()
      reads this
    {
      && 1 <= step <= 4
      && NoDup(cats)
      && (forall c :: c in selectedTags ==> NoDup(selectedTags[c]))
    }

    constructor ()
      ensures Valid()
      ensures step == 1 && cats == [] && budget == 500 && customBudget == None
      ensures recs == map[] && categoryTags == map[] && selectedTags == map[] && activeTab == None
    {
      step, cats, budget, customBudget := 1, [], 500, None;
      recs, categoryTags, selectedTags, activeTab := map[], map[], map[], None;
    }

    /**
     * A click on the step indicator: step 1 is always open, steps 2 and 3
     * only with a category selected, step 4 only once results exist.
     */
    method ClickStep(target: int)
      requires Valid() && 1 <= target <= 4
      modifies this`step
      ensures Valid()
      ensures step == target <==> target == 1 || (2 <= target <= 3 && |cats| > 0) || (target == 4 && |recs| > 0) || old(step) == target
      ensures step == target || step == old(step)
    {
      if target == 1 || (2 <= target <= 3 && |cats| > 0) || (target == 4 && |recs| > 0) {
        step := target;
      }
    }

    /** "Continue to Budget", disabled while no category is selected. */
    method ContinueToBudget()
      requires Valid()
      modifies this`step
      ensures Valid()
      ensures step == if |cats| > 0 then 2 else old(step)
    {
      if |cats| > 0 {
        step := 2;
      }
    }

    /** "Continue to Preferences" (step 2) and "Back to Preferences" (step 4). */
    method GoToPreferences()
      requires Valid()
      modifies this`step
      ensures Valid() && step == 3
    {
      step := 3;
    }

    method SetBudget(value: int)
      requires Valid()
      modifies this`budget
      ensures Valid() && budget == value
    {
      budget := value;
    }

    method SetCustomBudget(value: Option<int>)
      requires Valid()
      modifies this`customBudget
      ensures Valid() && customBudget == value
    {
      customBudget := value;
    }

    /**
     * `toggleCat(c)`: the category is added at the end or removed; when any
     * category is left, the tag lists are reloaded for exactly those.
     */
    method ToggleCat(c: Category, api: map<Category, seq<string>>)
      requires Valid()
      modifies this`cats, this`categoryTags
      ensures Valid()
      ensures cats == Toggle(old(cats), c)
      ensures |cats| > 0 ==> categoryTags == CategoryTags(api, cats)
      ensures |cats| == 0 ==> categoryTags == old(categoryTags)
    {
      ToggleKeepsNoDup(cats, c);
      cats := Toggle(cats, c);
      if |cats| > 0 {
        categoryTags := CategoryTags(api, cats);
      }
    }

    method ToggleTag(c: Category, tag: string)
      requires Valid()
      modifies this`selectedTags
      ensures Valid()
      ensures selectedTags == ToggledTags(old(selectedTags), c, tag)
    {
      ToggleKeepsNoDup(TagsOf(selectedTags, c), tag);
      selectedTags := ToggledTags(selectedTags, c, tag);
    }

    /**
     * `showRecs` (and "New Recommendations"): one list per selected
     * category, the first category's tab opened, step 4 shown.
     */
    method ShowRecs(replies: map<Category, Response<Rec>>)
      requires Valid()
      modifies this`recs, this`activeTab, this`step
      ensures Valid()
      ensures recs == RecsFrom(cats, replies) && step == 4
      ensures activeTab == if |cats| > 0 then Some(cats[0]) else old(activeTab)
    {
      recs := RecsFrom(cats, replies);
      if |cats| > 0 {
        activeTab := Some(cats[0]);
      }
      step := 4;
    }

    method SwapOne(cat: Category, idx: int, reply: Response<Rec>)
      requires Valid()
      modifies this`recs
      ensures Valid()
      ensures recs == Swapped(old(recs), cat, idx, reply)
    {
      recs := Swapped(recs, cat, idx, reply);
    }

    method SelectTab(c: Category)
      requires Valid()
      modifies this`activeTab
      ensures Valid() && activeTab == Some(c)
    {
      activeTab := Some(c);
    }
  }

  /** State of the party wizard. */
  class PartyFlow {
    var step: int
    var guests: Option<int>
    var hours: Option<int>
    var cats: seq<Category>
    var splits: seq<Entry<Category>>
    var results: Option<map<Category, Quantity>>
    var recs: map<Category, seq<Rec>>
    var categoryTags: map<Category, seq<string>>
    var selectedTags: map<Category, seq<string>>
    var activeTab: Option<Category>

    /**
     * Besides the step range and duplicate-free selections: the splits hold
     * exactly one percentage per selected category, each in 0..100, and
     * they add up to 100 whenever two or more categories are selected; the
     * results step is only ever shown with results computed.
     */
    ghost predicate Valid()
      reads this
    {
      && 1 <= step <= 4
      && NoDup(cats)
      && (forall c :: c in selectedTags ==> NoDup(selectedTags[c]))
      && NoDup(Keys(splits))
      && (forall c :: c in Keys(splits) <==> c in cats)
      && (forall e :: e in splits ==> 0 <= e.pct <= 100)
      && (|cats| >= 2 ==> Total(splits) == 100)
      && (step == 4 ==> results.Some?)
    }

    constructor ()
      ensures Valid()
      ensures step == 1 && guests == None && hours == None && cats == [] && splits == [] && results == None
      ensures recs == map[] && categoryTags == map[] && selectedTags == map[] && activeTab == None
    {
      step, guests, hours, cats, splits, results := 1, None, None, [], [], None;
      recs, categoryTags, selectedTags, activeTab := map[], map[], map[], None;
    }

    /**
     * A click on the step indicator: step 2 needs both party fields filled
     * in, step 3 those and a category, step 4 computed results.
     */
    method ClickStep(target: int)
      requires Valid() && 1 <= target <= 4
      modifies this`step
      ensures Valid()
      ensures step == target <==>
                || target == 1
                || (target == 2 && guests.Some? && hours.Some?)
                || (target == 3 && guests.Some? && hours.Some? && |cats| > 0)
                || (target == 4 && results.Some?)
                || old(step) == target
      ensures step == target || step == old(step)
    {
      if || target == 1
         || (target == 2 && guests.Some? && hours.Some?)
         || (target == 3 && guests.Some? && hours.Some? && |cats| > 0)
         || (target == 4 && results.Some?)
      {
        step := target;
      }
    }

    method SetGuests(value: Option<int>)
      requires Valid()
      modifies this`guests
      ensures Valid() && guests == value
    {
      guests := value;
    }

    method SetHours(value: Option<int>)
      requires Valid()
      modifies this`hours
      ensures Valid() && hours == value
    {
      hours := value;
    }

    /** "Continue to Drink Selection", enabled for at least one guest and one hour. */
    method ContinueToDrinks()
      requires Valid()
      modifies this`step
      ensures Valid()
      ensures step == if CountOrZero(guests) >= 1 && CountOrZero(hours) >= 1 then 2 else old(step)
    {
      if CountOrZero(guests) >= 1 && CountOrZero(hours) >= 1 {
        step := 2;
      }
    }

    /** "Continue to Split Percentages", disabled while no category is selected. */
    method ContinueToSplit()
      requires Valid()
      modifies this`step
      ensures Valid()
      ensures step == if |cats| > 0 then 3 else old(step)
    {
      if |cats| > 0 {
        step := 3;
      }
    }

    /** "Back to Settings" from the results. */
    method BackToSettings()
      requires Valid()
      modifies this`step
      ensures Valid() && step == 3
    {
      step := 3;
    }

    /**
     * `toggleCat(c)`: the category is added at the end or removed, the
     * splits are reset evenly over the new selection (the last one taking
     * the remainder), and the tag lists are reloaded when any is left.
     */
    method ToggleCat(c: Category, api: map<Category, seq<string>>)
      requires Valid()
      modifies this`cats, this`splits, this`categoryTags
      ensures Valid()
      ensures cats == Toggle(old(cats), c)
      ensures splits == Spread(cats, 100)
      ensures |cats| > 0 ==> categoryTags == CategoryTags(api, cats)
      ensures |cats| == 0 ==> categoryTags == old(categoryTags)
    {
      ToggleKeepsNoDup(cats, c);
      cats := Toggle(cats, c);
      splits := Distribute(cats, 100);
      if |cats| > 0 {
        categoryTags := CategoryTags(api, cats);
      }
    }

    /**
     * `updateSplit(c, value)` for the split input of a selected category:
     * `c` gets the clamped value and the others share the rest.
     */
    method UpdateSplit(c: Category, value: int)
      requires Valid() && c in cats
      modifies this`splits
      ensures Valid()
      ensures splits == [Entry(c, Clamp(value))] + Spread(Remove(cats, c), 100 - Clamp(value))
    {
      splits := Rebalance(cats, c, value);
      MoveToFrontKeepsNoDup(cats, c);
      if |cats| >= 2 {
        assert cats[0] != cats[1];
        var other := if cats[0] != c then cats[0] else cats[1];
        assert other in cats && other != c;
      }
    }

    method ToggleTag(c: Category, tag: string)
      requires Valid()
      modifies this`selectedTags
      ensures Valid()
      ensures selectedTags == ToggledTags(old(selectedTags), c, tag)
    {
      ToggleKeepsNoDup(TagsOf(selectedTags, c), tag);
      selectedTags := ToggledTags(selectedTags, c, tag);
    }

    /**
     * The effect that loads the tag lists on reaching step 3 with
     * categories selected and no tag list loaded yet.
     */
    method StepOrCatsChanged(api: map<Category, seq<string>>)
      requires Valid()
      modifies this`categoryTags
      ensures Valid()
      ensures categoryTags == if step == 3 && |cats| > 0 && |old(categoryTags)| == 0
                              then CategoryTags(api, cats) else old(categoryTags)
    {
      if step == 3 && |cats| > 0 && |categoryTags| == 0 {
        categoryTags := CategoryTags(api, cats);
      }
    }

    /**
     * `compute` (and "New Recommendations"): the quantities for every
     * selected category, one recommendation list per category, the first
     * category's tab opened, step 4 shown. With two or more categories the
     * servings shown cover every drink of the party.
     */
    method Compute(replies: map<Category, Response<Rec>>)
      requires Valid()
      modifies this`results, this`recs, this`activeTab, this`step
      ensures Valid()
      ensures results == Some(Quantities(cats, splits, guests, hours))
      ensures |cats| >= 2 ==> ServingsOver(results.value, cats) >= TotalDrinks(guests, hours)
      ensures recs == RecsFrom(cats, replies) && step == 4
      ensures activeTab == if |cats| > 0 then Some(cats[0]) else old(activeTab)
    {
      var out := ComputeQuantities(cats, splits, guests, hours);
      ComputedServingsCoverParty(cats, splits, guests, hours);
      results := Some(out);
      recs := RecsFrom(cats, replies);
      if |cats| > 0 {
        activeTab := Some(cats[0]);
      }
      step := 4;
    }

    method SwapOne(cat: Category, idx: int, reply: Response<Rec>)
      requires Valid()
      modifies this`recs
      ensures Valid()
      ensures recs == Swapped(old(recs), cat, idx, reply)
    {
      recs := Swapped(recs, cat, idx, reply);
    }

    method SelectTab(c: Category)
      requires Valid()
      modifies this`activeTab
      ensures Valid() && activeTab == Some(c)
    {
      activeTab := Some(c);
    }
  }
}
