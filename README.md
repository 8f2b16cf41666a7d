# Google Ads analytics dashboard — a Dafny model of its logic

The dashboard is a single-page React app. A user types a domain. If the domain is on a two-entry
allowlist, the app shows a mocked analytics record for it: a visitor total, a ranked list of clicks
by country with flags, a visitor chart with a tooltip, and, for the premium domain only, a budget
summary and a billing modal that keeps a list of payment cards.

This project models the three pieces of that app that are logic rather than layout:

- `app.dfy` (module `App`) covers the domain gate, the record types and the fixture lookup. It also
  holds the search view as a class with the three state fields `searchDomain`, `error` and
  `showResults`, and the submit, back and input-edit handlers. `Valid()` is the reachable-state
  invariant: shown results imply an authorized input and no message, and a message is always the
  rejection of the current input. Every handler establishes it, from any state.
- `analytics_display.dfy` (module `AnalyticsDisplay`) covers the two rankings, the tooltip gate,
  budget visibility and flag attachment. Both rankings are `Object.entries(...).sort(cmp)`.
  `Compare` is each comparator as written. `Sort` is a stable insertion sort that never compares an
  entry with itself. Four lemmas pin it down as the one order of the entries that such a sort can
  produce:
  - it is a permutation that is ordered by the comparator (`SortPermutation`, `SortSorted`);
  - every class of tied entries keeps its entry order (`SortTies`);
  - any ordered sequence with the same tie classes equals it (`SortUnique`).
- `billing_information.dfy` (module `BillingInformation`) covers the card list as a class with a
  `seq<CardInfo>` and the two modal flags. The field `pattern` attributes are written as a small
  anchored regular-expression matcher (`FullMatch`), and a closed form is proved for each pattern.
- `scenarios.dfy` walks through the end-to-end cases using only the contracts.
- `wrappers.dfy` holds `Option`, which stands for `undefined`/`null`.

Three modelling choices follow the code:
- After Back, the typed domain is kept (src/App.tsx:349-352).
- A card added through the form stores the card number exactly as typed (sixteen digits). Only the
  default card's number is masked.
- The input box is only rendered while results are hidden, and the Back button only while they are
  shown. The handlers are still modelled from every state, and each one establishes `Valid()` on
  its own.

## Model

| member | source | states |
|---|---|---|
| `App.IsDomainAuthorized` | src/App.tsx:181-183 | Definition: `includes` on the two-entry allowlist, an exact, case-sensitive string test. |
| `App.ParseDomain` | src/App.tsx:179-183 | The type guard as a refinement: it yields a value exactly when the input is authorized, and that value's name is the input. |
| `App.AuthorizedExactly` | src/App.tsx:181-183 | Authorized exactly when the input equals "panelplayhouse.com" or "boroomtech.com", which is exactly when some `AuthorizedDomain` has that name. |
| `App.ParseName` | src/App.tsx:179-183 | Every allowlisted domain passes the guard and refines back to itself. |
| `App.NearMissesRejected` | src/App.tsx:181-183 | There is no trimming, case folding or prefix stripping: "", " boroomtech.com", "https://boroomtech.com", "BoroomTech.com", "www.panelplayhouse.com" and "unknown.com" are rejected. |
| `App.Lookup` | src/App.tsx:207-336 | The fixture lookup is total over the enumeration. Only panelplayhouse.com has a budget. The visitor totals are 3000 and 1300. |
| `App.CurrentAnalytics` | src/App.tsx:354 | `currentAnalytics` is null exactly when the input is not authorized; otherwise it is the fixture record of the domain with that name. |
| `App.NotAllowedMessage` | src/App.tsx:341 | Definition: "You are not allowed this URL: " followed by the input as typed. |
| `App.NotAllowedMessageInjective` | src/App.tsx:341 | The rejection message is never empty and determines the rejected input. |
| `App.SearchView.Valid` | src/App.tsx:338-352 | Definition of the reachable-state invariant: shown results imply an authorized input and no message; a message is the rejection of the current input, with results hidden. |
| `App.SearchView.constructor` | src/App.tsx:212-214 | Starts with an empty input, no message and hidden results, in the Searching phase. |
| `App.SearchView.Analytics` | src/App.tsx:354 | In a valid state with results shown, the current record is never null. |
| `App.SearchView.Submit` | src/App.tsx:338-347 | Keeps the input. An unauthorized input gets the message "You are not allowed this URL: " plus the input, with results hidden. An authorized input clears the message and shows results. Establishes `Valid()`. |
| `App.SearchView.Track` | src/App.tsx:384 | With an empty input the disabled button changes nothing. Otherwise it submits: results are shown exactly when the input is authorized, and the message is set exactly when it is not. It preserves `Valid()`. |
| `App.SearchView.Back` | src/App.tsx:349-352 | Hides results and clears the message, keeping the input. Establishes `Valid()`. |
| `App.SearchView.Edit` | src/App.tsx:377-381 | Stores the new text, clears the message and hides results. Establishes `Valid()`. |
| `AnalyticsDisplay.Compare` | src/components/AnalyticsDisplay.tsx:213-219 | Definition: the country comparator returns 1 when the first key is "Others", -1 when the second is, and otherwise the click difference; the tooltip comparator (line 190) is the count difference alone. |
| `AnalyticsDisplay.StrictWeakOrder` | src/components/AnalyticsDisplay.tsx:213-219 | "Must come strictly before" (a negative comparator result) is irreflexive, asymmetric and negatively transitive for both comparators, so a stable sort that never compares an entry with itself has one result. |
| `AnalyticsDisplay.SelfComparison` | src/components/AnalyticsDisplay.tsx:213-219 | Comparing an entry with itself gives 0 except for the country comparator on an "Others" entry, which gives 1. So the country comparator is not consistent in the ECMAScript sense whenever "Others" is a key. |
| `AnalyticsDisplay.Sort` | src/components/AnalyticsDisplay.tsx:212-219 | Stable insertion sort of the entries; it keeps the length (its order is stated by the lemmas below). |
| `AnalyticsDisplay.SortPermutation` | src/components/AnalyticsDisplay.tsx:212-219 | The sort returns a permutation of its input: nothing is added, dropped or altered. |
| `AnalyticsDisplay.SortSorted` | src/components/AnalyticsDisplay.tsx:212-219 | No entry of the sorted result must come before an earlier one under the comparator. |
| `AnalyticsDisplay.SortTies` | src/components/AnalyticsDisplay.tsx:212-219 | Stability: every class of tied entries keeps its order from `Object.entries`. |
| `AnalyticsDisplay.SortUnique` | src/components/AnalyticsDisplay.tsx:212-219 | Any ordered sequence with the input's tie classes in entry order equals `Sort`. |
| `AnalyticsDisplay.SortOfSorted` | src/components/AnalyticsDisplay.tsx:212-219 | A list that is already ordered by the comparator comes back unchanged. |
| `AnalyticsDisplay.SortedCountries` | src/components/AnalyticsDisplay.tsx:212-219 | `sortedCountries` is a permutation of the entries of `clicksByCountry`. Among entries other than "Others", clicks never increase. Nothing other than "Others" follows an "Others" entry. |
| `AnalyticsDisplay.SortedCountriesStable` | src/components/AnalyticsDisplay.tsx:212-219 | Countries with equal clicks keep their entry order. |
| `AnalyticsDisplay.OthersLast` | src/components/AnalyticsDisplay.tsx:214-216 | With distinct keys, if "Others" is a key, then its entry, with its own count, is the last element of the ranking whatever that count is. |
| `AnalyticsDisplay.TooltipRows` | src/components/AnalyticsDisplay.tsx:189-190 | The tooltip rows are a permutation of `countryClicks` with counts non-increasing along the list. "Others" gets no special case. |
| `AnalyticsDisplay.TooltipRowsStable` | src/components/AnalyticsDisplay.tsx:189-190 | Rows with equal counts keep their entry order. |
| `AnalyticsDisplay.CustomizedTooltip` | src/components/AnalyticsDisplay.tsx:172-201 | Renders nothing unless `active` is true and `payload` is non-empty. Otherwise it shows the first point's total and its country rows, sorted by count. |
| `AnalyticsDisplay.ShowBudget` | src/components/AnalyticsDisplay.tsx:221 | Definition: the domain is panelplayhouse.com and the record has a budget. |
| `AnalyticsDisplay.BudgetShownFor` | src/components/AnalyticsDisplay.tsx:221 | With the fixture records, the budget is shown for panelplayhouse.com and never for boroomtech.com. |
| `AnalyticsDisplay.BudgetOnlyForPremium` | src/components/AnalyticsDisplay.tsx:221-225 | `showBudget` holds exactly when the domain is panelplayhouse.com and a budget is present. It is false for boroomtech.com whatever the record. |
| `AnalyticsDisplay.ShowBillingInformation` | src/components/AnalyticsDisplay.tsx:244-246 | The nested billing view shows exactly when the budget shows. |
| `AnalyticsDisplay.DefaultCardNotEnterable` | src/components/AnalyticsDisplay.tsx:204-210 | The masked default card could not have been entered through the add-card form. |
| `AnalyticsDisplay.FlagFor` | src/components/AnalyticsDisplay.tsx:263-265 | Written as the JSX guard: a property read that yields `undefined` for a missing key, then JavaScript truthiness. Proved equivalent to: a flag is attached exactly when the country is not "Others", is a key of `countryFlags` and has a non-empty code there, and that code is the one attached. |
| `AnalyticsDisplay.CountryRows` | src/components/AnalyticsDisplay.tsx:260-279 | One row per entry, in ranking order, each with its flag. An "Others" row never carries a flag. |
| `AnalyticsDisplay.RowsFlagged` | src/components/AnalyticsDisplay.tsx:260-279 | If every country other than "Others" has a two-letter code in `countryFlags`, then exactly the "Others" row has no flag, and every other row shows the code of its own country. |
| `AnalyticsDisplay.FixtureFlagsComplete` | src/App.tsx:216-336 | Both fixture records give every country except "Others" a two-letter code. |
| `AnalyticsDisplay.FixtureRowFlags` | src/components/AnalyticsDisplay.tsx:260-279 | For both domains, every rendered country row shows its own two-letter code from `countryFlags`, and the "Others" row shows none. |
| `AnalyticsDisplay.PanelPlayhouseRanking` | src/components/AnalyticsDisplay.tsx:212-219 | For panelplayhouse.com the ranking is Australia 1200, Chile 700, United States 699, Others 401. |
| `AnalyticsDisplay.BoroomTechRanking` | src/components/AnalyticsDisplay.tsx:212-219 | For boroomtech.com the ranking is United States 400, United Kingdom 200, Canada 180, China 130, Singapore 90, Others 300. Others is last although 300 > 90. |
| `AnalyticsDisplay.TooltipOthersMidList` | src/components/AnalyticsDisplay.tsx:189-190 | For the first panelplayhouse.com point, the tooltip is Australia 800, Chile 300, Others 300, United States 100. Others sits mid-list, after the tied Chile. |
| `BillingInformation.FullMatch` | src/components/BillingInformation.tsx:249-270 | Definition: an HTML `pattern` matches the whole value, each term taking between its minimum and maximum number of characters of its atom. |
| `BillingInformation.FormAccepted` | src/components/BillingInformation.tsx:215-272 | Definition of what constraint validation lets through: the three name fields are non-empty (`required`) and the card number, expiry and CVV match their patterns in full. |
| `BillingInformation.CardNumberShape` | src/components/BillingInformation.tsx:249 | `\d{16}` matched in full accepts exactly the strings of sixteen ASCII digits. |
| `BillingInformation.ExpiryShape` | src/components/BillingInformation.tsx:260 | `\d{2}/\d{2}` matched in full accepts exactly two digits, "/", two digits. |
| `BillingInformation.CvvShape` | src/components/BillingInformation.tsx:270 | `\d{3,4}` matched in full accepts exactly three or four digits. |
| `BillingInformation.CardOf` | src/components/BillingInformation.tsx:147-153 | The stored card of an accepted form has non-empty name fields and a card number and expiry that match their patterns. |
| `BillingInformation.CvvDiscarded` | src/components/BillingInformation.tsx:147-153 | The stored card does not depend on the CVV. |
| `BillingInformation.DropIndex` | src/components/BillingInformation.tsx:160 | The index filter deletes exactly position `index` when it is in range, keeping the order of the rest. Otherwise it keeps every element. |
| `BillingInformation.RemoveAt` | src/components/BillingInformation.tsx:158-161 | Index 0, a negative index or an index past the end leaves the list unchanged. Any other index deletes exactly that position, and the length drops by one. |
| `BillingInformation.RemoveAtKeepsHead` | src/components/BillingInformation.tsx:158-161 | Removal keeps a non-empty list non-empty and its head unchanged. Every later card comes from a later position of the old list. |
| `BillingInformation.RemoveAtKeepsEntered` | src/components/BillingInformation.tsx:158-161 | If every card after the head came through the form, the same holds after a removal. |
| `BillingInformation.AddThenRemove` | src/components/BillingInformation.tsx:154-160 | Appending a card and then removing the last position restores the list. |
| `BillingInformation.BillingInformation.Valid` | src/components/BillingInformation.tsx:140-161 | Definition of the list invariant: at least one card, the default card at the head, and every other card of the shape the form accepts. |
| `BillingInformation.BillingInformation.constructor` | src/components/BillingInformation.tsx:140-142 | Starts with `[defaultCard]`, with the modal and the form closed. |
| `BillingInformation.BillingInformation.OpenModal` | src/components/BillingInformation.tsx:166 | Opens the modal and changes nothing else. |
| `BillingInformation.BillingInformation.CloseModal` | src/components/BillingInformation.tsx:172-175 | Closes both the modal and the form and keeps the cards. |
| `BillingInformation.BillingInformation.StartAddingCard` | src/components/BillingInformation.tsx:209 | Shows the form and changes nothing else. |
| `BillingInformation.BillingInformation.CancelAddingCard` | src/components/BillingInformation.tsx:276 | Hides the form and changes nothing else. |
| `BillingInformation.BillingInformation.AddCard` | src/components/BillingInformation.tsx:144-156 | Appends the card built from the form, without its CVV, and closes the form. Keeps the invariant that the default card is at the head and every other card came through the form. |
| `BillingInformation.BillingInformation.RemoveCard` | src/components/BillingInformation.tsx:158-162 | The new list is `RemoveAt(old list, index)`. Keeps the same invariant. |

## Left out

- Styling and JSX layout: the styled-components blocks and the markup are cosmetic.
- The chart and the flag icons belong to external libraries (recharts, ReactCountryFlag). The
  visitor history is handed to the chart unchanged, and the model does not describe the drawing.
- The Y-axis bound `Math.ceil(dataMax * 1.1)` is floating point, so an exact model would disagree
  with it (1000 * 1.1 rounds up to 1101).
- Date and number formatting (`toLocaleString`, `toLocaleDateString`, `new Date`) depend on locale
  and timezone. The tooltip's date title is therefore not part of `TooltipContent`.
- Budget amounts are kept as `real` values and only carried. Nothing relates total, spent and
  remaining.
- Clicks and visitor counts are JavaScript numbers. They are modelled as integers, the only values
  the fixture holds.
- `Object.entries` lists integer-like keys first, in numeric order. The model takes the entries in
  the order `Object.entries` yields them.
- AnalyticsDisplay.Sort: the country comparator returns 1 when an "Others" entry is compared with
  itself, where section 23.1.3.30 of ECMAScript 2024 (`Array.prototype.sort`) requires 0 of a
  consistent comparator. For every record with an "Others" key, both fixture records included,
  the language therefore leaves the sort order implementation-defined. The model gives the order
  of a stable sort that never compares an entry with itself, which is what the common engines
  do; it does not model an engine that makes that comparison.
- Keys of a JavaScript object are distinct, so two "Others" entries cannot occur. The model puts
  all such entries last, and `OthersLast` assumes distinct keys.
- `countryFlags[country]` also finds properties inherited from `Object.prototype` (a country named
  "constructor", say). The model looks up own keys only.
- `FormData` extraction and `preventDefault` are browser plumbing. The handler receives the six
  form values as a `CardForm`.
- BillingInformation.BillingInformation.AddCard: modelled only for a form that passes the browser's
  `required` and `pattern` validation, because the browser does not dispatch the submit otherwise.
- A text input strips line breaks from its value. `Edit` stores the text it is given.
- Nothing in the code keeps the visitor history in date order, and the model does not assume it.
- React state batching and re-rendering, and the modal's CSS visibility, are not modelled. Each
  handler's updates take effect together.
