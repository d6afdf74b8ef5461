# SipBuddy drink planner: a verified model of its core

SipBuddy is a drink-recommendation chatbot with a React frontend and two
Express backends. This project models the parts of it that hold the logic:

- **The "for myself" wizard** (`MyselfFlow`, four steps: categories,
  budget, preferences, results). Its state is a class, and its event
  handlers are the class's methods.
- **The party wizard** (`PartyFlow`: party size, drinks, split
  percentages, results). Its state is also a class with one method per
  handler. Two algorithms inside it are modelled separately:
  - the integer split redistribution (`Split.Distribute` and
    `Split.Rebalance`);
  - the quantity estimator (`Estimator.ComputeQuantities`).
- **The admin screen** (`Admin.AdminPanel`), covering:
  - the item settings table;
  - the four recommendation weights, edited as integer percentages;
  - what happens when the weights request returns: the weights themselves
    and the percentage inputs derived from them.
- **The `/estimate/quantity` endpoint** of the small backend
  (`QuantityEndpoint`).
- **The `/api/recommendations` endpoint** of the catalogue backend
  (`Recommendations`). It is modelled twice:
  - as written, where `TYPE_MAP[category]` sees inherited `Object.prototype`
    names;
  - corrected, where it only sees its own entries.

API replies, which arrive through `fetch`, are parameters of the methods.
The `Response` type gives each reply one of three shapes:

- `Failed`: the request or the JSON parse threw;
- `NotArray`: the body is not an array;
- `Array(elems)`: the body is an array.

The split and weight objects are association lists (`seq<Entry<K>>`).
This keeps JavaScript's property insertion order.

Form fields holding a number are `Option<int>`, where `None` is the empty
field. The number parsing itself is left out.

Prices and weights are `real` and all arithmetic is exact. The only
rounding modelled is the rounding the code does on purpose: `Math.floor`,
`Math.ceil` and `Math.round`.

Files:

| file | what it models |
|---|---|
| `wrappers.dfy` | `Option` and `Response` |
| `selection.dfy` | the `includes ? filter : [...s, x]` toggle used by every selection |
| `split.dfy` | the even split with the remainder going to the last key, and the clamped rebalance |
| `categories.dfy` | categories and their tag lists, including the fallback lists |
| `estimator.dfy` | drinks and packs per category |
| `wizard.dfy` | both wizards |
| `admin.dfy` | the admin screen |
| `quantity_endpoint.dfy` | `backend/index.js` |
| `recommendations.dfy` | `backend/server.js` |

### Behaviour worth knowing (not a defect)

- `/estimate/quantity` applies `Number(p) || d`, which replaces only `NaN`
  and 0. Negative counts pass through unchanged (`NegativeNotClamped`).
- `/api/recommendations` returns three fixed products per category and
  ignores `maxPrice` and `limit` (`PriceAndLimitIgnored`).

In `MyselfFlow`, step 3 can be reached with no category selected:

1. get results (step 4);
2. go back to step 1 and deselect every category;
3. click the step-4 indicator, which is allowed because `recs` is still
   filled;
4. press "Back to Preferences".

The model allows this path, because `GoToPreferences` has no guard, just as
the source.

## Model

| member | source | states |
|---|---|---|
| Selection.Remove | frontend/src/Flows.js:40 | `filter(x => x !== c)` keeps exactly the other elements, each as often as before, and drops every `c`; a list without `c` comes back unchanged; the result never grows |
| Selection.Toggle | frontend/src/Flows.js:40 | the toggled element's membership flips; every other element keeps its membership; a present element is filtered out, the rest keeping their order; an absent element is appended at the end |
| Selection.RemoveKeepsNoDup | frontend/src/Flows.js:40 | filtering a duplicate-free list keeps it duplicate-free |
| Selection.ToggleKeepsNoDup | frontend/src/Flows.js:572 | toggling keeps a selection duplicate-free |
| Selection.MoveToFrontKeepsNoDup | frontend/src/Flows.js:608-614 | putting the edited key first, before the filtered others, gives a key list without duplicates |
| Selection.RemoveAppended | frontend/src/Flows.js:40 | removing an element just appended gives back the original list |
| Selection.ToggleTwiceRestores | frontend/src/Flows.js:40 | toggling an unselected element twice restores the selection |
| Selection.RemoveDropsOne | frontend/src/AdminPanel.js:52 | with distinct keys, filtering out a present key removes exactly one element (three weight keys remain of four) |
| Selection.RemoveConcat | frontend/src/Flows.js:40 | filtering a concatenation filters each part and keeps them in order, so the kept elements keep their relative order |
| Split.SpreadShares | frontend/src/Flows.js:573-577 | the even split adds up to the total; every key but the last gets `floor(total / n)`; the last gets `floor(total / n) + total mod n`; with a non-negative total each share is within 0..total |
| Split.Distribute | frontend/src/Flows.js:573-577 | the `forEach` loop builds the even split over the keys in their order; its keys are the input keys; it adds up to the total; its shares are within 0..total |
| Split.Clamp | frontend/src/Flows.js:607 | `Math.max(0, Math.min(100, v))` is within 0..100, is `v` inside that range, 0 below it and 100 above it |
| Split.Rebalance | frontend/src/Flows.js:606-616 | the edited key comes first with the clamped value; the other keys follow in order and share `100 - value` evenly; the result adds up to 100 whenever another key exists; every percentage is within 0..100 |
| Split.LookupFinds | frontend/src/Flows.js:624 | `splits[c] \|\| 0` on distinct keys gives the key's own percentage, or 0 for a key not in the object |
| Categories.TagsFor | frontend/src/Flows.js:554-557 | the kept tag list is the API list when that is non-empty, otherwise the fallback list; it is never empty |
| Categories.CategoryTags | frontend/src/Flows.js:561-567 | the tag object has exactly the requested categories, each with a non-empty list |
| Estimator.CeilDiv | frontend/src/Flows.js:630 | `Math.ceil(a / b)` is the least `q` with `a <= q * b` |
| Estimator.QuantityFor | frontend/src/Flows.js:627-653 | servings are `total * split / 100` rounded up; units are the fewest that hold them, at 12 per pack for Beer and RTD and 5 per bottle for Wine; unit and size labels are per category |
| Estimator.UnitsCoverServings | frontend/src/Flows.js:630-633 | the units bought hold every serving and never a whole unit more than needed |
| Estimator.NoGuestsNoDrinks | frontend/src/Flows.js:619-621 | an empty or zero guest or hour field (`parseInt \|\| 0`) gives zero servings and zero units |
| Estimator.ServingsCoverParty | frontend/src/Flows.js:621-653 | the servings over all categories cover `total * sum(splits) / 100`, hence every drink of the party when the splits add up to 100 |
| Estimator.ComputedServingsCoverParty | frontend/src/Flows.js:618-654 | with one split per selected category and no key twice, the servings of the results object add up to the servings of the split list, so they cover every drink when the splits add up to 100 |
| Estimator.ComputeQuantities | frontend/src/Flows.js:618-654 | the `cats.forEach` loop gives one entry per selected category and no other; each entry is that category's quantity for `splits[c] \|\| 0`; with no guests or no hours every entry is zero |
| Estimator.TwentyGuestsFourHoursOfBeer | frontend/src/Flows.js:621-634 | 20 guests for 4 hours need 160 drinks, which is 14 twelve-packs when all are beer |
| Wizard.ToggledTags | frontend/src/Flows.js:588-604 | the tag flips in that category's list; other tags of that category keep their membership; other categories are untouched; the category gains an entry |
| Wizard.ToggleTagTwice | frontend/src/Flows.js:84-100 | toggling a tag twice restores every category's tag list |
| Wizard.Swapped | frontend/src/Flows.js:692-697 | a non-empty array reply puts its first item at position `idx`; the rest of the list and the other categories are untouched; a category without a list gets the one-item list; any other reply changes nothing |
| Wizard.SwapBack | frontend/src/Flows.js:141-146 | swapping the replaced card back in restores the recommendations |
| Wizard.RecsFrom | frontend/src/Flows.js:104-123 | one list per selected category: the reply's array, or `[]` for a failure or a non-array body |
| Wizard.MaxSpend | frontend/src/Flows.js:103 | a filled-in custom budget wins over the slider; otherwise the slider value |
| Wizard.MyselfFlow.constructor | frontend/src/Flows.js:22-29 | initial state: step 1, no categories, budget 500, empty custom budget, no recommendations or tags |
| Wizard.MyselfFlow.ClickStep | frontend/src/Flows.js:159-189 | step 1 is always open; steps 2 and 3 need a selected category; step 4 needs recommendations; any other click leaves the step |
| Wizard.MyselfFlow.ContinueToBudget | frontend/src/Flows.js:235-236 | moves to step 2 only with a category selected |
| Wizard.MyselfFlow.GoToPreferences | frontend/src/Flows.js:404 | moves to step 3 with no guard |
| Wizard.MyselfFlow.SetBudget | frontend/src/Flows.js:263 | the slider sets the budget |
| Wizard.MyselfFlow.SetCustomBudget | frontend/src/Flows.js:270 | the custom field sets the custom budget |
| Wizard.MyselfFlow.ToggleCat | frontend/src/Flows.js:38-48 | toggles the category; while any category is left, the tag lists are those of exactly the selection; the selection stays duplicate-free |
| Wizard.MyselfFlow.ToggleTag | frontend/src/Flows.js:84-100 | the tags become `ToggledTags` of the old tags; every tag list stays duplicate-free |
| Wizard.MyselfFlow.ShowRecs | frontend/src/Flows.js:102-129 | one recommendation list per selected category; the first category's tab opens; step 4 is shown |
| Wizard.MyselfFlow.SwapOne | frontend/src/Flows.js:131-151 | the recommendations become `Swapped` of the old ones |
| Wizard.MyselfFlow.SelectTab | frontend/src/Flows.js:439 | the clicked tab becomes active |
| Wizard.PartyFlow.constructor | frontend/src/Flows.js:518-527 | initial state: step 1, empty fields, no categories, splits or results |
| Wizard.PartyFlow.ClickStep | frontend/src/Flows.js:718-747 | step 2 needs both party fields; step 3 needs those and a category; step 4 needs results; the split invariant is kept |
| Wizard.PartyFlow.SetGuests | frontend/src/Flows.js:769 | sets the guest field |
| Wizard.PartyFlow.SetHours | frontend/src/Flows.js:783 | sets the hours field |
| Wizard.PartyFlow.ContinueToDrinks | frontend/src/Flows.js:796-797 | moves to step 2 only with at least one guest and one hour |
| Wizard.PartyFlow.ContinueToSplit | frontend/src/Flows.js:849-850 | moves to step 3 only with a category selected |
| Wizard.PartyFlow.BackToSettings | frontend/src/Flows.js:1020 | moves to step 3 |
| Wizard.PartyFlow.ToggleCat | frontend/src/Flows.js:570-586 | toggles the category; the splits are reset to the even split of 100 over the new selection; the tags reload; the split invariant holds: one percentage per selected category, each in 0..100, adding up to 100 from two categories on |
| Wizard.PartyFlow.UpdateSplit | frontend/src/Flows.js:606-616 | the edited category gets the clamped value and the others share the rest; the split invariant is kept |
| Wizard.PartyFlow.ToggleTag | frontend/src/Flows.js:588-604 | the tags become `ToggledTags` of the old tags |
| Wizard.PartyFlow.StepOrCatsChanged | frontend/src/Flows.js:707-712 | tags load only at step 3, with categories selected and no tags loaded yet |
| Wizard.PartyFlow.Compute | frontend/src/Flows.js:618-681 | the results are the quantities for the selection and its splits; with two or more categories their servings cover every drink of the party; one recommendation list per category; the first tab opens; step 4 is shown |
| Wizard.PartyFlow.SwapOne | frontend/src/Flows.js:683-702 | the recommendations become `Swapped` of the old ones |
| Wizard.PartyFlow.SelectTab | frontend/src/Flows.js:1085 | the clicked tab becomes active |
| Admin.FromEntriesKey | frontend/src/AdminPanel.js:24 | `Object.fromEntries(rows)` has exactly the keys of the rows |
| Admin.FromEntriesLast | frontend/src/AdminPanel.js:24 | each key holds the value of its last row |
| Admin.FirstKeys | frontend/src/AdminPanel.js:30 | `Object.keys` of the weight object lists exactly the keys of the rows |
| Admin.FirstKeysDistinct | frontend/src/AdminPanel.js:30 | each key is listed once |
| Admin.Round | frontend/src/AdminPanel.js:31 | `Math.round(x)` is within half a point of `x`, with halves rounded up |
| Admin.PercentsOf | frontend/src/AdminPanel.js:29-32 | one input per weight key, in order, each the rounded share of the total |
| Admin.RoundingDrift | frontend/src/AdminPanel.js:28-32 | over `n` keys the rounded percentages add up to within `n / 2` of the exact shares' sum |
| Admin.LoadedPercentsNear100 | frontend/src/AdminPanel.js:27-33 | loaded weights with a non-zero sum show percentages adding up to 100 only within half a point per key |
| Admin.EqualThirdsShow99 | frontend/src/AdminPanel.js:27-33 | three equal weights show 33% each, so the total line reads 99% |
| Admin.DefaultPercents | frontend/src/AdminPanel.js:35-45 | a non-array reply shows 25% per weight; a failed request shows 30/26/20/24; both add up to 100 |
| Admin.WeightRows | frontend/src/AdminPanel.js:56-63 | one `[key, percentage / 100]` pair per input, in order |
| Admin.WeightsOfInputs | frontend/src/AdminPanel.js:56-63 | the weight object has exactly the inputs' keys; with distinct keys each weight is its percentage divided by 100 |
| Admin.EditsShowBack | frontend/src/AdminPanel.js:170-203 | a checkbox edit is shown back as clicked; a picked `yyyy-mm-dd` date is shown back as picked |
| Admin.OtherWeightShares | frontend/src/AdminPanel.js:49-63 | editing one weight leaves three others, the first two at `floor(rest / 3)` and the last at `rest - 2 * floor(rest / 3)` |
| Admin.RebalancedKeys | frontend/src/AdminPanel.js:51-63 | the rebuilt weight object lists the edited key and the other keys once each, and another key always exists to take the rest |
| Admin.AdminPanel.constructor | frontend/src/AdminPanel.js:7-9 | no items, unit weights, every percentage input empty (read as 0) |
| Admin.AdminPanel.LoadItems | frontend/src/AdminPanel.js:14-20 | the item list is the reply's array, or empty for a failure or a non-array body |
| Admin.AdminPanel.LoadWeights | frontend/src/AdminPanel.js:21-46 | weights from the rows, or the unit or fallback weights; percentage inputs derived from them with the same keys |
| Admin.AdminPanel.UpdateWeight | frontend/src/AdminPanel.js:49-67 | the percentages are rebalanced over the four keys, add up to 100 and stay within 0..100; each weight is its percentage divided by 100 |
| Admin.AdminPanel.SetPromotion | frontend/src/AdminPanel.js:168-175 | only that row's promotion flag changes, to 1 or 0 |
| Admin.AdminPanel.SetHot | frontend/src/AdminPanel.js:178-185 | only that row's hot flag changes |
| Admin.AdminPanel.SetFirstSeen | frontend/src/AdminPanel.js:188-195 | only that row's first-seen date changes |
| Admin.AdminPanel.SetLastPurchase | frontend/src/AdminPanel.js:198-205 | only that row's last-purchase date changes |
| QuantityEndpoint.OrDefault | backend/index.js:11-12 | `Number(p) \|\| d`: `NaN` and 0 take the default; every other number, negatives included, is kept |
| QuantityEndpoint.Estimate | backend/index.js:9-17 | the echoed guest count and duration are the effective values `Number(p) \|\| d`: 10 guests and 4 hours stand in for each unusable parameter on its own; they are never zero; non-zero inputs are echoed unchanged; the litres are half their product |
| QuantityEndpoint.EchoIsStable | backend/index.js:11-16 | sending the echoed inputs back gives the same reply |
| QuantityEndpoint.DefaultEstimate | backend/index.js:11-14 | missing or zero parameters give 10 guests, 4 hours and 20 litres |
| QuantityEndpoint.MixedDefaults | backend/index.js:11-14 | a single unusable parameter takes only its own default: no guest count with 3 hours gives 10 guests and 15 litres; 25 guests with no duration gives 4 hours and 50 litres |
| QuantityEndpoint.EstimateMonotone | backend/index.js:14 | more guests never lower the estimate |
| QuantityEndpoint.NegativeNotClamped | backend/index.js:11-14 | a negative guest count is kept and gives a negative estimate |
| Recommendations.TypeCode | backend/server.js:120-124 | exactly Beer, Wine and RTD have a two-letter type code starting with the category's initial |
| Recommendations.Handle | backend/server.js:204-236 | status 400 "Invalid category" exactly for a category without a type code; otherwise 200 with three products, each with a positive price and an id starting with the category's initial |
| Recommendations.PriceAndLimitIgnored | backend/server.js:206 | `maxPrice` and `limit` never change the answer |
| Recommendations.TypeMapGet | backend/server.js:209 | a property read on `TYPE_MAP` misses exactly for names that are neither own entries nor inherited from `Object.prototype` |
| Recommendations.HandleAsWritten | backend/server.js:204-236 | as written, status 400 only for a missing property |
| Recommendations.AsWrittenAgreesOffPrototype | backend/server.js:209-212 | the written and the corrected handler agree on every category that is not an inherited name |
| Recommendations.ConstructorAccepted | backend/server.js:209-212 | `category=constructor` gets 200 with no body as written, but 400 once corrected |
| Recommendations.InheritedNamesAccepted | backend/server.js:209-212 | every inherited name gets 200 without products as written, but 400 once corrected |

## Left out

- JSX rendering, styling and the step-indicator classes are not modelled. They compute nothing.
- The `fetch` calls are reduced to the replies they deliver, which are method parameters (`Response`, or a map of tag lists per category). Asynchrony is left out:
  - no interleaving between concurrent requests;
  - no stale React state read by a handler;
  - `fetchCategoryTags` first sets the fallback lists and then the final ones; only the final state is modelled.
- Wizard.MyselfFlow.ShowRecs: the query string's budget and tags (`maxSpend`, `tags=`) only shape the request, not the state, so they are not modelled. `Wizard.MaxSpend` states what the budget would be.
- Number parsing is left out: `+value`, `parseInt`, `Number` and the number inputs' own text. Fields are `Option<int>`, or `Option<real>` for the estimator endpoint, where `None` is the empty or unparsable field.
- Wizard.PartyFlow.ContinueToDrinks: the source tests `+guests >= 1`. The model tests the field's integer value, so fractional input such as `1.5` is not modelled.
- Estimator.QuantityFor: floating-point artefacts of `total * (pct / 100) / 12` are not modelled. The model uses exact rational arithmetic.
- Admin.PercentsOf: `Math.round((w / total) * 100)` works on binary floating point, so a share that is exactly a half in real arithmetic can round the other way there. The model rounds the exact share.
- Wizard.PartyFlow.UpdateSplit: the split input passes `+e.target.value`, which can be fractional (`12.5`). The model's value is an integer, so fractional splits are not modelled.
- Admin.PercentsOf: a zero weight total gives `NaN` or an infinity in the input field. The model reads it as 0, as the total line's `parseInt(val) || 0` does.
- Admin.FirstKeys: JavaScript lists integer-like property names first, in ascending order. The model lists keys in first-row order only. Weight keys are words, so this only matters for malformed rows.
- Admin.AdminPanel.LoadWeights: the rows' `value` is modelled as a number. A database driver that delivers a decimal as text would make the source's sum concatenate strings, and this is not modelled.
- Admin.AdminPanel.SetPromotion: the source copies the array but mutates the shared row object (`c[i].promotion = v`). The model replaces the row, so aliasing with the previous array is not modelled. The same holds for SetHot, SetFirstSeen and SetLastPurchase.
- Admin.AdminPanel.UpdateWeight: the inputs store `value.toString()`. The model keeps the integer, and the string form is left out.
- Wizard.PartyFlow.UpdateSplit: requires the category to be selected. The split inputs are rendered only for selected categories (frontend/src/Flows.js:899-910).
- Saving an item or the weights (`saveItem`, `saveWeights`) only posts the current state over the network and is left out.
- The database-backed admin endpoints of the backend, and the chat panel, are not part of this model.
- Recommendations.Handle: the 500 path is left out, because nothing in the hardcoded handler throws. Query-string arrays and objects as `category` are left out too: the category is an absent value or one string.

## Findings

| source | as written | input that shows it | evidently intended | confidence | as-written member | corrected member |
|---|---|---|---|---|---|---|
| backend/server.js:209-212 | `TYPE_MAP[category]` also finds names inherited from `Object.prototype`, so `!typeCode` lets them through | `GET /api/recommendations?category=constructor` answers 200 with no body instead of 400; `__proto__` answers `{}` (`Recommendations.ConstructorAccepted`, `Recommendations.InheritedNamesAccepted`) | only Beer, Wine and RTD are valid; every other category gets 400 "Invalid category" | not executed | Recommendations.HandleAsWritten | Recommendations.Handle |
