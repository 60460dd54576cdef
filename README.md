# Consapi consumption advisor: a Dafny model

Consapi is a web wizard that advises companies on washroom consumables.
The user fills in four steps:

1. the company's sector and size;
2. the head counts of women and men and the working schedule;
3. the public types of the washrooms, with their proportions and the
   number of visitors;
4. the products of interest and the bathroom segment.

The browser then works out a traffic level from the head count and the
working schedule. It looks up the recommended references and dispensers in
a product catalog keyed by product, segment and traffic level. It asks the
Flask backend for the monthly consumption of each product, and lets the user
change the reference of a product from a sorted select list. The report is
saved at the end.

This project models that logic:

- the wizard state and its setters (`state.js`), with step validation and
  the toggles (`validation.js`), and the step navigation and sidebar classes
  (`Steps.js`);
- the traffic level, the segment rule, the recommended reference list and
  its in-place sort (`Portfolio.js`);
- the default references, the request bodies, the reference number and the
  report columns (`api.js`);
- the option search behind a reference button, and the image paths
  (`ui-handlers.js`);
- `getSku` and the `'na'` short cut of `calculoconsumo` (`main.py`).

JavaScript values are modelled explicitly:

- a `Number` is an integer or `NaN`, and `parseInt` is decimal;
- `||` and `??` are spelled out;
- `Object.keys` and `for…in` orders are parameters.

Python `int()` is an optional sign followed by ASCII digits.

Modules:

- `Common`: `Option` and `NoDuplicates`.
- `Strings`: prefixes, containment, lower case, decimal digits.
- `JsNumbers`: `Number`, `parseInt`, `+`, number-to-text.
- `Traffic` and `Segment`: the classification rules.
- `Catalog`: the catalog lookup, the recommended list and the view chosen.
- `ReferenceOrder`: the comparator and the stable in-place sort of the
  available references.
- `Company`: the company record and its merge.
- `State`: the `AppState` class and the list helpers.
- `Validation` and `Steps`: the wizard.
- `UiHandlers`: the reference button and the image paths.
- `Api`: the request bodies and the report.
- `Recommendation`: the references of one product on the results page.
- `Sku`: the backend helpers.

## Model

| member | source | states |
|---|---|---|
| Strings.StartsWithContains | webapp/static/ui-handlers.js:102-103 | a text that starts with a prefix contains it |
| Strings.ToLower | webapp/static/api.js:264-272 | `toLowerCase` on ASCII and Latin-1 capitals: same length, each character lowered |
| Strings.ToLowerIdempotent | webapp/static/api.js:264-272 | lowering twice is lowering once |
| Strings.LowerLetterAbsent | webapp/static/api.js:264-272 | a lower-case letter absent from a text, together with its capital, is absent from the lower-cased text |
| Strings.LeadingDigits | webapp/static/api.js:172 | the match of `^(\d+)`: a prefix made of digits that is followed by no digit |
| Strings.DigitsValueOfNatToDigits | webapp/static/api.js:172 | the decimal text of a number reads back as that number |
| Strings.LeadingDigitsOfDigitsThen | webapp/static/api.js:172 | on a digit text followed by a non-digit, the leading digits are exactly that digit text |
| JsNumbers.TrimStart | webapp/static/validation.js:87-88 | `parseInt` drops leading white space: a suffix of the input that starts with no white space, and every character dropped is white space |
| JsNumbers.ParseInt | webapp/static/validation.js:178-181 | `parseInt` gives a number iff a digit follows the white space and the optional sign, and a negative number only after a minus sign |
| JsNumbers.ParseIntOfIntToString | webapp/static/validation.js:87-88 | `parseInt` reads the decimal text of every integer back as that integer |
| JsNumbers.ParseIntNaN | webapp/static/validation.js:87-88 | a text with no digit after the white space and one optional sign is `NaN`: "", "-", "+x" and "abc" alike |
| JsNumbers.OrZero | webapp/static/validation.js:140-141 | `x \|\| 0`: the number itself, or 0 for `NaN` |
| JsNumbers.Add | webapp/static/Portfolio.js:78 | `+` on numbers: `NaN` exactly when an operand is `NaN`, otherwise the sum |
| Traffic.IntensityFactor10 | webapp/static/Portfolio.js:170-179 | the hour factor is 1.5, 1.3, 1.0 or 0.8 at the thresholds 16, 12 and 8 hours |
| Traffic.FrequencyFactor10 | webapp/static/Portfolio.js:182-193 | the day factor is 1.4, 1.2, 1.0, 0.8 or 0.6 at the thresholds 28, 22, 20 and 15 days |
| Traffic.LevelOfIndex100 | webapp/static/Portfolio.js:199-202 | Bajo below 40, Medio below 180, Alto below 450, otherwise Pico, with each level exactly on its interval |
| Traffic.AdjustedIndex100 | webapp/static/Portfolio.js:196 | the two factors scale a head count by at least 0.48 and at most 2.1; a negative head count gives a negative index |
| Traffic.DetermineTrafficLevel | webapp/static/Portfolio.js:168-203 | on integer inputs, fewer than 20 employees are always Bajo and 938 or more always Pico, whatever the schedule |
| Traffic.DetermineTrafficLevelJs | webapp/static/Portfolio.js:168-203 | a `NaN` head count compares false with every limit and gives Pico; integer inputs give the level of their index |
| Traffic.LevelOfIndexMonotone | webapp/static/Portfolio.js:199-202 | a larger index never gives a lower level |
| Traffic.ZeroEmployeesIsBajo | webapp/static/Portfolio.js:196-199 | no employees gives Bajo whatever the schedule |
| Traffic.MonotoneInEmployees | webapp/static/Portfolio.js:168-203 | more employees never give a lower level |
| Traffic.MonotoneInSchedule | webapp/static/Portfolio.js:168-203 | more days and more hours never give a lower level |
| Traffic.Examples | webapp/static/Portfolio.js:168-203 | 100 people on 20×8 is Medio; 300 on 30×16 is Pico; 200 on 30×12 is Alto |
| Segment.DetermineSegment | webapp/static/Portfolio.js:213-229 | the result is one of the four segments |
| Segment.SegmentCharacterisation | webapp/static/Portfolio.js:213-229 | Higiene Crítica iff a health or HoReCa sector; Wow Factor iff otherwise size 200+; Restroom Plus iff otherwise 51-200, or 11-50 with a floating public or several types; Essential iff none of these |
| Segment.CriticalSectorsIgnoreTheRest | webapp/static/Portfolio.js:215-216 | for the two critical sectors, size and public types do not matter |
| Segment.RepeatedTypeCountsAsSeveral | webapp/static/Portfolio.js:219-224 | an array holding one type twice counts as several types, and a single string does not |
| Catalog.Lookup | webapp/static/Portfolio.js:83 | `productData[p]?.[segment]?.[level]`: the stored cell when all three keys are present, otherwise absent |
| Catalog.ConcatMembership | webapp/static/Portfolio.js:87-89 | a reference is in the concatenation iff some entry lists it |
| Catalog.Dedup | webapp/static/Portfolio.js:96 | `[...new Set(xs)]`: no duplicates, and exactly the same members |
| Catalog.FirstIndex | webapp/static/Portfolio.js:96 | the first position at which an element occurs |
| Catalog.DedupKeepsFirstOccurrenceOrder | webapp/static/Portfolio.js:96 | the deduplicated list keeps the elements in the order of their first occurrences |
| Catalog.DedupKeepsHead | webapp/static/Portfolio.js:96 | the first element survives deduplication, in first place |
| Catalog.ConcatStartsWithFirst | webapp/static/Portfolio.js:87-89 | the concatenation of entries starts with the first entry's references |
| Catalog.Flatten | webapp/static/Portfolio.js:83-94 | no cell recommends nothing; for an array, the first entry's references come first in the concatenation |
| Catalog.HasReferences | webapp/static/Portfolio.js:406-410 | when the first or only entry has references, the recommended list is not empty |
| Catalog.RecommendedReferences | webapp/static/Portfolio.js:81-96 | the loop builds the deduplicated flattening of the cell |
| Catalog.RecommendedMembership | webapp/static/Portfolio.js:81-96 | no cell gives no references; a single entry recommends its own references; several entries recommend the references of any entry |
| Catalog.FirstDispenser | webapp/static/Portfolio.js:355-363 | the dispenser shown is the first dispenser of the single entry, or of the first of several entries |
| Catalog.ViewOf | webapp/static/Portfolio.js:406-418 | the "no recommendations" view iff the first or only entry has no references; otherwise the multiple view for an array and the single view for one entry |
| Catalog.LaterEntriesDoNotMakeReferences | webapp/static/Portfolio.js:406-418 | a first entry with no references shows "no recommendations" even though a later entry's references are recommended in the select |
| ReferenceOrder.PrefixRuleExample | webapp/static/Portfolio.js:110-111 | "1234 - Premium Roll" matches the chosen reference "1234" |
| ReferenceOrder.MatchesSelected | webapp/static/Portfolio.js:110-111 | a reference matches only a non-empty chosen reference, and then starts with it |
| ReferenceOrder.Compare | webapp/static/Portfolio.js:109-123 | the comparator returns -1, 0 or 1, and 0 for a reference compared with itself |
| ReferenceOrder.Rank | webapp/static/Portfolio.js:109-123 | a tier from 0 to 3: at most 1 iff it matches the chosen reference; even iff recommended |
| ReferenceOrder.CompareIsTierOrder | webapp/static/Portfolio.js:109-123 | the comparator orders by tier, returns 0 exactly within a tier, and is antisymmetric |
| ReferenceOrder.FilterAppend | webapp/static/Portfolio.js:109-123 | selecting one tier distributes over appending |
| ReferenceOrder.InsertPermutes | webapp/static/Portfolio.js:109-123 | an insertion step adds the element and nothing else |
| ReferenceOrder.InsertFilter | webapp/static/Portfolio.js:109-123 | an insertion step puts the element after all earlier elements of its own tier |
| ReferenceOrder.InsertSorted | webapp/static/Portfolio.js:109-123 | inserting into a tier-ordered list keeps it tier-ordered |
| ReferenceOrder.SortPermutes | webapp/static/Portfolio.js:109-123 | the sort is a permutation of its input |
| ReferenceOrder.SortSpec | webapp/static/Portfolio.js:109-123 | the stable sort by the comparator keeps the number of references |
| ReferenceOrder.SortOrdersByTier | webapp/static/Portfolio.js:109-123 | the sorted references are in tier order |
| ReferenceOrder.SortIsStable | webapp/static/Portfolio.js:109-123 | within each tier the sort keeps the original order, as `Array.prototype.sort` guarantees |
| ReferenceOrder.FilterAboveIsEmpty | webapp/static/Portfolio.js:109-123 | a tier above every rank present selects nothing |
| ReferenceOrder.TiersAppend | webapp/static/Portfolio.js:109-123 | appending an element of the highest tier adds it at the end of the tier partition |
| ReferenceOrder.SortedIsTiers | webapp/static/Portfolio.js:109-123 | a tier-ordered list is its own tier partition |
| ReferenceOrder.SortIsTierPartition | webapp/static/Portfolio.js:109-123 | the sorted list is four tiers, each in its original order: chosen and recommended, then chosen but not recommended, then recommended but not chosen, then the rest |
| ReferenceOrder.InsertStep | webapp/static/Portfolio.js:109-123 | shifting an element of a higher tier one place right is one step of the insertion |
| ReferenceOrder.InsertStop | webapp/static/Portfolio.js:109-123 | the insertion stops in front of an element of the same or a lower tier |
| ReferenceOrder.SwapLeft | webapp/static/Portfolio.js:109-123 | swapping the inserted element with its left neighbour moves it one place left and leaves the rest in order |
| ReferenceOrder.Comparator | webapp/static/Portfolio.js:109-123 | the comparator callback: positive exactly when the first argument's tier is higher |
| ReferenceOrder.InsertAt | webapp/static/Portfolio.js:109-123 | the prefix up to position `i` becomes the insertion of the element at `i`, and the rest is unchanged |
| ReferenceOrder.SortReferences | webapp/static/Portfolio.js:109-123 | the array sorted in place equals the stable tier sort of its old contents |
| ReferenceOrder.IsPreselected | webapp/static/Portfolio.js:138 | the option equal to the current value is pre-selected, and any other pre-selected option starts with the chosen reference |
| ReferenceOrder.PreselectedVersusMatch | webapp/static/Portfolio.js:137 | an option is pre-selected iff it equals the select's current value or matches the chosen reference, including the bare-number prefix rule |
| Company.Pick | webapp/static/state.js:53-55 | a spread field: the patch's value when it has one, otherwise the old one |
| Company.Merge | webapp/static/state.js:53-55 | the patch `{ selectedReferences }` changes that key alone, and the empty patch changes nothing |
| Company.MergeLaws | webapp/static/state.js:53-55 | an empty patch changes nothing; merging into the empty record gives the patch; a repeated patch is idempotent; two patches compose into one |
| State.AddIfAbsent | webapp/static/state.js:115-119 | the element is present afterwards, and nothing else is added |
| State.Without | webapp/static/state.js:125-127 | `filter(x => x !== v)` never makes the list longer |
| State.WithoutMembership | webapp/static/state.js:125-127 | after the filter, a value is present iff it was present before and is not the removed one |
| State.AddIfAbsentCounts | webapp/static/state.js:115-119 | a new element is appended exactly once; a present one changes nothing |
| State.AddIfAbsentKeepsNoDuplicates | webapp/static/state.js:115-119 | adding keeps a duplicate-free list duplicate-free |
| State.WithoutMultiset | webapp/static/state.js:125-127 | removal deletes every copy of the value and keeps the count of every other element |
| State.WithoutAppend | webapp/static/state.js:125-127 | removal distributes over concatenation |
| State.WithoutAbsent | webapp/static/state.js:125-127 | removing an absent value changes nothing |
| State.WithoutKeepsNoDuplicates | webapp/static/state.js:125-127 | removal keeps a duplicate-free list duplicate-free |
| State.RemoveAfterAdd | webapp/static/state.js:115-127 | adding and then removing a value is the same as removing it |
| State.AppState.constructor | webapp/static/state.js:22-39 | the initial state: empty company data, consumption and catalog, step 0, no selections |
| State.AppState.UpdateCompanyData | webapp/static/state.js:53-55 | the company data becomes the merge of the old data with the patch |
| State.AppState.SetConsumptionData | webapp/static/state.js:61-63 | replaces the consumption data |
| State.AppState.SetProductData | webapp/static/state.js:69-71 | replaces the catalog |
| State.AppState.SetCurrentStep | webapp/static/state.js:85-87 | sets the step |
| State.AppState.NextStep | webapp/static/state.js:92-94 | the step goes up by one |
| State.AppState.PreviousStep | webapp/static/state.js:99-101 | the step goes down by one |
| State.AppState.AddSelectedProduct | webapp/static/state.js:115-119 | the product list gains the product if absent, and the product then occurs once |
| State.AppState.RemoveSelectedProduct | webapp/static/state.js:125-127 | every copy of the product leaves the list, and the other products keep their counts |
| State.AppState.AddSelectedPublicType | webapp/static/state.js:141-145 | as for products, on the public-type list |
| State.AppState.RemoveSelectedPublicType | webapp/static/state.js:151-153 | as for products, on the public-type list |
| State.AppState.SetSelectedBathroomSegment | webapp/static/state.js:167-169 | sets the segment |
| State.AppState.ResetState | webapp/static/state.js:174-181 | back to the initial state, except that the loaded catalog is kept |
| Validation.ValidateStep | webapp/static/validation.js:160-233 | the result is the step's pass condition and the company data becomes the step's write: company-sector passes iff sector and size are non-empty and then stores them; demographics passes iff the four fields are non-empty and then stores their `parseInt`s; public-type passes iff a type is chosen, the proportions sum to 100 when administrativo and operativo are both chosen, and a chosen flotante has a positive visitor count; product-selection passes iff products and a segment are chosen and then stores both |
| Validation.ValidatePublicType | webapp/static/validation.js:184-222 | the public-type case: the pass condition and the write of that step, with the proportions stored before the visitor check |
| Validation.StepWriteFrame | webapp/static/validation.js:160-233 | a failed step stores nothing except, on the public-type step, the proportions; every step keeps the fields of the other steps and the selected references |
| Validation.PassingStepStores | webapp/static/validation.js:160-233 | a passing step stores what it checked: sector and size, the four `parseInt`s, the public types with a positive visitor count when flotante is chosen, or the products and the segment |
| Validation.FailedVisitorsKeepProportions | webapp/static/validation.js:193-215 | proportions summing to 100 with an unusable visitor count fail the step but stay stored |
| Validation.ProportionTotal | webapp/static/validation.js:194-197 | the sum of the two parsed proportions, a field that is not a number counting as 0 |
| Validation.ValidVisitors | webapp/static/validation.js:211-212 | a usable visitor count is a positive number, so it never follows a minus sign |
| Validation.Toggle | webapp/static/validation.js:11-34 | a click flips the membership of the clicked value and leaves every other value's membership unchanged |
| Validation.ToggleTwice | webapp/static/validation.js:11-34 | two clicks restore the membership of every value, and the list itself when the value was absent |
| Validation.ToggleIsAddOrRemove | webapp/static/validation.js:11-34 | a click is the state's add for an absent value and its remove for a present one, and keeps the list free of duplicates |
| Validation.ToggleProduct | webapp/static/validation.js:11-22 | a product button toggles the product in the selected products |
| Validation.TogglePublicType | webapp/static/validation.js:25-34 | a public-type button toggles the type in the selected public types |
| Validation.DemographicsNextEnabled | webapp/static/validation.js:81-100 | "next" is enabled iff the `parseInt` of either head-count field is a positive number |
| Validation.DemographicsOnNumbers | webapp/static/validation.js:81-100 | on numeric fields, "next" is enabled iff either count is positive |
| Validation.EnabledWithNegativeTotal | webapp/static/validation.js:81-100 | 5 women and −10 men enable "next" although the total is −5 |
| Validation.ClassifyTotal | webapp/static/validation.js:139-154 | the total is shown as exact, over or under iff the sum of the two proportions is equal to, above or below 100 |
| Steps.NextStep | webapp/static/Steps.js:144-157 | blocked iff the step's validation fails; advanced by one iff it passes below the last step; generates iff it passes on the last step; otherwise the step stays; the company data becomes the validation's write, even on failure |
| Steps.PreviousStep | webapp/static/Steps.js:162-168 | one step back, and nothing on the first step |
| Steps.StartQuiz | webapp/static/Steps.js:173-177 | the wizard restarts on the first step with empty company data, no consumption and no selections, and keeps the catalog |
| Steps.ClassOf | webapp/static/Steps.js:69-83 | completed iff before the current step, active iff on it, pending iff after |
| Steps.UpdateStepsList | webapp/static/Steps.js:66-84 | every sidebar item receives the class of its index |
| Steps.Classes | webapp/static/Steps.js:66-84 | the classes of the items, by index |
| Steps.ClassCounts | webapp/static/Steps.js:66-84 | on step k exactly k items are completed and exactly one is active |
| Steps.CompletedPrefix | webapp/static/Steps.js:66-84 | every item before the current step is completed and none is active |
| UiHandlers.PartialMatchIsContains | webapp/static/ui-handlers.js:102-103 | the "starts with ref + ' -'" test adds nothing to the containment test |
| UiHandlers.PartialMatch | webapp/static/ui-handlers.js:102-103 | a matching option is at least as long as the reference, and an empty reference matches every option |
| UiHandlers.FirstPartial | webapp/static/ui-handlers.js:135-144 | the first option containing the reference, or none when no option contains it |
| UiHandlers.SelectizeChoice | webapp/static/ui-handlers.js:92-119 | a chosen value is a non-empty key, and a non-empty key equal to the reference is chosen itself |
| UiHandlers.NativeChoice | webapp/static/ui-handlers.js:120-151 | a chosen value is an option that contains the reference |
| UiHandlers.NativeChoiceSpec | webapp/static/ui-handlers.js:120-151 | an equal option wins; otherwise the first option containing the reference; no match chooses nothing; the choice is always an option |
| UiHandlers.SelectizeVersusNative | webapp/static/ui-handlers.js:92-119 | the Selectize branch chooses like the native one, except that it never sets an empty value |
| UiHandlers.SelectElement.constructor | webapp/static/ui-handlers.js:85-86 | a select with the given options and value |
| UiHandlers.SelectElement.ClickNative | webapp/static/ui-handlers.js:120-151 | found iff there is a native choice; then the value is that choice, otherwise it is unchanged |
| UiHandlers.SelectElement.ExactPass | webapp/static/ui-handlers.js:126-132 | found iff an option equals the reference; then the value is the reference, otherwise it is unchanged |
| UiHandlers.SelectElement.PartialPass | webapp/static/ui-handlers.js:135-144 | found iff some option partially matches; then the value is the first such option, otherwise it is unchanged |
| UiHandlers.SelectElement.ClickSelectize | webapp/static/ui-handlers.js:92-119 | found iff the Selectize choice exists and is non-empty; then the value is that choice, otherwise it is unchanged |
| UiHandlers.PrefixFirstPartial | webapp/static/ui-handlers.js:135-144 | a first match in a prefix is the first match of the whole list |
| UiHandlers.ImagePath | webapp/static/ui-handlers.js:30-66 | an image path is `/static/images/` followed by the name and ending with the extension (`.png` for a reference, `.jpg` for a dispenser) |
| UiHandlers.ImagePathsRoundTrip | webapp/static/ui-handlers.js:30-66 | the name is recovered from either path, so paths are injective, and a reference image is never a dispenser image |
| Api.DefaultReferenceList | webapp/static/api.js:47-59 | the references of the single entry, or of the first of several entries; none otherwise |
| Api.DefaultReference | webapp/static/api.js:62-68 | `null` iff the product's reference list is empty, otherwise one of that list |
| Api.DefaultIsFirstRecommended | webapp/static/api.js:61-67 | a default exists iff the cell shows references, and it is the first recommended reference of the results page |
| Api.OnlyFirstEntryFeedsDefault | webapp/static/api.js:50-56 | entries after the first never affect the default; an empty first entry means no default |
| Api.DefaultReferences | webapp/static/api.js:47-69 | one list and one default per selected product: the default is the first reference of the list, or `null` |
| Api.ProductReferences | webapp/static/api.js:49-57 | the reference list of one product's catalog cell |
| Api.ProportionsOrEmpty | webapp/static/api.js:83 | `proporciones \|\| {}`: empty iff the proportions are missing, else both keys |
| Api.VisitorsOrZero | webapp/static/api.js:84 | `numVisitantes \|\| 0`: zero iff missing or zero, otherwise the count |
| Api.PrepareConsumption | webapp/static/api.js:38-85 | no products means the request is not built; otherwise the defaults are merged into the company data, and the request carries them, the six profile fields and the products as stored, and the `\|\| {}` and `\|\| 0` fallbacks |
| Api.RecalcRequestFor | webapp/static/api.js:142-153 | the recalculation body carries the six profile fields, the product, the new reference and the same fallbacks |
| Api.ReferenceNumber | webapp/static/api.js:172-173 | the leading digits of the select value when it starts with a digit, otherwise the value itself |
| Api.ReferenceNumberIdempotent | webapp/static/api.js:172-173 | extracting the number twice changes nothing |
| Api.ReferenceNumberOfCatalogText | webapp/static/api.js:172-200 | "1234 - Name" gives "1234", and the image `/static/images/1234.png` |
| Api.ColumnFor | webapp/static/api.js:264-273 | papel iff "papel" occurs in the lower-cased name; jabones iff not papel and "jabón" or "jabon" occurs; toallas iff neither and "toalla" occurs |
| Api.ColumnForIgnoresCase | webapp/static/api.js:264-273 | the column does not depend on letter case |
| Api.PapelColumn | webapp/static/api.js:264-266 | "Papel Higiénico" fills the papel columns |
| Api.JabonesColumn | webapp/static/api.js:267-269 | "Jabones y Gel" fills the jabones columns |
| Api.ToallasColumn | webapp/static/api.js:270-272 | "Toallas de Manos" fills the toallas columns |
| Api.ReportColumns.Set | webapp/static/api.js:264-273 | writing one column pair leaves the other two unchanged |
| Api.SelectId | webapp/static/api.js:261 | the select id is "ref-" followed by the name with each white-space character replaced by "-" |
| Api.SelectIdCollides | webapp/static/api.js:261 | two names that differ only where one has white space and the other a dash share one select id |
| Api.SelectedValue | webapp/static/api.js:261-262 | a value iff the page has a select with the product's id, and then one of the selects' values |
| Api.ColumnsAfter | webapp/static/api.js:258-275 | every column pair is either still `null` or carries a consumption |
| Api.LastKeyWins | webapp/static/api.js:259-275 | a column holds the select value and consumption of the last product, in key order, that maps to it |
| Api.NoKeyLeavesNull | webapp/static/api.js:242-275 | a column that no product maps to keeps its two `null`s |
| Api.SaveReporte | webapp/static/api.js:236-275 | the report carries the profile fields, and its columns are those given by the products in key order |
| Recommendation.ProfileEmployees | webapp/static/Portfolio.js:78 | the head count is a number iff both counts are numbers, and then it is their sum |
| Recommendation.ProfileLevel | webapp/static/Portfolio.js:78-79 | Pico when the head count is not a number; otherwise, on numeric days and hours, the level of the integer inputs |
| Recommendation.SegmentKey | webapp/static/Portfolio.js:77 | the stored segment, or the key "undefined" that a missing segment becomes |
| Recommendation.ProfileCell | webapp/static/Portfolio.js:83 | a cell is found only under the product, the segment key and the level label of the profile |
| Recommendation.ResolveSelectedReference | webapp/static/Portfolio.js:104-106 | the explicit choice when it is not null; otherwise the reference the backend used; none only when neither exists |
| Recommendation.EmptyChoiceDoesNotFallThrough | webapp/static/Portfolio.js:104-111 | an empty explicit choice is kept by `??` but matches no option in the sort |
| Recommendation.OptionFor | webapp/static/Portfolio.js:126-139 | an option is starred iff its reference is recommended, and pre-selected by the pre-selection rule |
| Recommendation.OptionText | webapp/static/Portfolio.js:131-135 | a starred option reads "⭐ ref (Recomendado)", any other one the bare reference |
| Recommendation.LoadReferences | webapp/static/Portfolio.js:77-139 | the recommended list of the profile's cell, the resolved choice, the available references sorted in place by the tier sort, and one option per sorted reference |
| Recommendation.NoPreferenceKeepsOrder | webapp/static/Portfolio.js:109-123 | with no choice and no recommendations the references keep their order |
| Recommendation.ProfileExample | webapp/static/Portfolio.js:78-79 | 150 women and 50 men working 30 days of 12 hours are "Tráfico Alto" |
| Recommendation.MissingHeadCountIsPico | webapp/static/Portfolio.js:78-79 | a missing head count gives `NaN` and thus "Tráfico Pico" |
| Recommendation.DisplayedReference | webapp/static/Portfolio.js:352 | the resolved reference, or the empty text when there is none |
| Sku.FirstToken | webapp/main.py:59 | `s.split(' ')[0]`: a prefix of the text with no space, followed by a space or the end |
| Sku.PyInt | webapp/main.py:59 | an accepted token is a sign or a digit followed by digits only, and a negative value comes only after a minus sign |
| Sku.GetSku | webapp/main.py:53-59 | an integer is returned as given; 'na' gives the sentinel, and only 'na' does; any other text gives the `int()` of its first token, or `ValueError` |
| Sku.PyIntOfIntToString | webapp/main.py:59 | `int()` reads the decimal text of every integer back |
| Sku.FirstTokenOfWordThenSpace | webapp/main.py:59 | a word followed by a space is the first token |
| Sku.GetSkuOfReference | webapp/main.py:53-59 | "n name" gives back n for every integer n |
| Sku.GetSkuRejects | webapp/main.py:59 | "", " 12" and "N/A" raise `ValueError` |
| Sku.CalculoConsumo | webapp/main.py:22-51 | "No Aplica" iff the SKU is 'na'; otherwise the price is 0, and the consumption is the computed value, or 0 when the computation raised |
| Sku.NoAplicaOnlyForNa | webapp/main.py:22-59 | a product gets "No Aplica" exactly when its reference was 'na', and every numbered reference gets figures |

## Left out

- The DOM is not modelled: the HTML built for steps, results and recommendations, the progress bar, the visibility of the proportion inputs (`updateProporcionInputs`) and the PDF export (`generatePDF`, html2canvas).
- The network is not modelled. `fetch` calls to the backend become their request bodies (`PrepareConsumption`, `RecalcRequestFor`, `SaveReporte`). Their responses are parameters (`SetConsumptionData`, the `available` array of `LoadReferences`). `generateRecommendations`, which only renders, is not modelled.
- The `catch` branches that log and alert are not modelled, and neither is the consumption text written into the page.
- The Flask routes, the pandas/Excel look-ups and the arithmetic of `calculoconsumo` are not modelled, and neither are the working-time products `tlhombres` and `tlmujeres` of `apitest`, which only feed that arithmetic. The computed consumption is a parameter of `CalculoConsumo` (`None` when the computation raised). `auth.py`, the logger, the models, `event-delegation.js`, `main.js` and `config.js` (except the four step ids) are not part of this model.
- Traffic.DetermineTrafficLevel: the index uses the factors scaled by ten and limits scaled by a hundred. This is exact for integer inputs. IEEE rounding of `numEmployees * 1.3 * 1.4` and fractional hours or days are not modelled.
- JsNumbers.ParseInt: decimal only. Hexadecimal `0x` prefixes, `Infinity` and values beyond 2^53 are not modelled.
- Strings.ToLower: lowers ASCII and Latin-1 capitals only. Full Unicode case mapping is not modelled.
- Catalog.Flatten: an entry of an array whose `referencias` is missing contributes no references. In the source, `concat(undefined)` would add an `undefined` element.
- State.AppState: `companyData.products` and `tipoPublico` are stored by value. In the source they alias `selectedProducts` and `selectedPublicTypes`. The module-level arrays of `validation.js` are the state's selection fields.
- State.AppState.NextStep and State.AppState.PreviousStep: no bound, as in `state.js`. The bounded navigation is `Steps.NextStep` and `Steps.PreviousStep`.
- UiHandlers.SelectElement.ClickSelectize: the key order is a parameter. Keys that `for…in` would inherit from `Object.prototype` are not modelled. The image and consumption refreshes that follow a found option are not modelled.
- Api.SaveReporte: the order of `Object.keys` is a parameter. A missing select element is a missing key of `selects`, and gives `null`.
- Sku.PyInt: ASCII digits and one sign only. Python's surrounding white space, underscores and non-ASCII digits are not modelled. JSON booleans, floats and `null` passed to `getSku` are not modelled; `null` raises `AttributeError` at `ref.split`.
- Company.ConsumptionEntry: only the monthly consumption (as a real) and the reference used are kept. The "No Aplica" text values are not kept.
- Where the documented behaviour of the wizard differs from the code, the model follows the code. The recommended list keeps first occurrences when it drops duplicates. Several public types are counted by array length, so a repeated type counts as several.
- The link between `Api.ReferenceNumber` and `Sku.GetSku` on catalog texts is not stated as one lemma. Each side is stated separately: `Api.ReferenceNumberOfCatalogText` and `Sku.GetSkuOfReference`.
