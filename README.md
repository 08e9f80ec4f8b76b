# Music tutor marketplace: listing pipeline and view state, in Dafny

This project models the logic of a browser-only marketplace where visitors browse
music tutor profiles and a (mock) logged-in tutor can add a listing. It covers:

- the **store** of tutor records, which only ever grows by appending
  (`App.AppState.HandleCreateAdvertisement`);
- the **filter** behind the result list (`App.FilterTutors`): a free-text query plus
  instrument, suburb and day selections, combined by conjunction;
- the **facets** that populate the filter panel (`App.AvailableInstruments`,
  `App.AvailableSuburbs`): distinct values, in ascending code-point order;
- the **sort** by rating, price or experience (`App.SortedTutors`). It is specified as
  the stable sort that ECMAScript 2019 requires of `Array.prototype.sort`, and it is
  implemented as an in-place insertion sort on a copied array (`Sorting.InsertionSort`);
- the **checkbox toggles** of the filter panel and the listing form (`SelectionList.Toggle`);
- the **listing form** and the record it submits (`CreateAdvertisement`);
- the **view-state machine**: browse screen with its contact and login overlays,
  and the dashboard with its prompt / form sub-state (`App.AppState`, `TutorDashboard.Dashboard`).

Modules, one per source file or shared concern:

| module | file | models |
|---|---|---|
| `Types` | types.dfy | the tutor record and the record without an id |
| `Seqs` | seqs.dfy | duplicate-freedom and subsequences |
| `Text` | text.dfy | `trim`, ASCII `toLowerCase`, `includes`, the default string sort order |
| `Sorting` | sorting.dfy | the stable comparator sort, functional and in place |
| `SelectionList` | selection_list.dfy | `filter(x => x !== v)` and the toggle built on it |
| `FilterPanel` | filter_panel.dfy | src/components/FilterPanel.tsx |
| `App` | app.dfy | src/App.tsx |
| `CreateAdvertisement` | create_advertisement.dfy | src/components/CreateAdvertisement.tsx |
| `TutorDashboard` | tutor_dashboard.dfy | src/components/TutorDashboard.tsx |

The stateful components are classes. Their handlers are methods whose postconditions
give the whole new state in terms of the old. `App.AppState.State()` folds all nine
state hooks into one value, so "nothing else changes" is a single equation. The list
computations are functions with lemmas; the facet extraction and the sort keep the
loops of the source.

Where the written specification of the system and the code disagree, the model
follows the code:

- The specification says a submitted listing must have a name, at least one
  instrument, at least one day and parseable numbers. `handleSubmit` checks none of
  this. The browser's `required` attributes cover the name, suburb, rate, experience
  and bio inputs. The instrument checkboxes, the custom-instrument input and the day
  checkboxes have no `required`, so nothing checks that an instrument or a day was
  chosen. `TutorDashboard.LoginCreateLogout` fills in every required field, ticks
  nothing, and shows a listing with no instrument and no day reaching the store.
- The specification calls the new id unique. The code takes it from `Date.now()`,
  which promises no uniqueness. The id is a parameter and no uniqueness is claimed.
- The specification says the text query is matched case-insensitively after trimming.
  The code trims only to decide whether the check runs. It then matches the untrimmed,
  lower-cased query (`App.UntrimmedQueryMustMatchVerbatim`).

## Model

| member | source | states |
|---|---|---|
| `App.KeepIffAllDimensions` | src/App.tsx:56-90 | a tutor is kept iff all four checks pass: the query check when the query is not blank, a shared instrument, exact suburb membership and a shared day; an empty selection constrains nothing |
| `App.HasAnyIffIntersects` | src/App.tsx:69-87 | `some(x => selected.includes(x))` holds iff the two lists share a value |
| `App.FilterTutors` | src/App.tsx:55-91 | the filtered list is an order-preserving subsequence of the store; each kept record appears exactly as often as in the store, and a rejected record not at all |
| `App.NoFilterKeepsAll` | src/App.tsx:55-91 | with a blank or whitespace-only query and no selection, the filtered list is the whole store in store order |
| `App.FilterAppend` | src/App.tsx:55-91 | filtering the store with one record appended gives the old filtered list plus that record iff it passes |
| `App.UntrimmedQueryMustMatchVerbatim` | src/App.tsx:58-65 | the query " piano" switches the text check on but does not match a tutor called "Piano" with no other text, while "piano" does |
| `App.InstrumentFacetMembers` | src/App.tsx:40-46 | a value is in the instrument facet iff some tutor in the store teaches it |
| `App.SuburbFacetMembers` | src/App.tsx:48-52 | a value is in the suburb facet iff some tutor in the store is in that suburb |
| `App.FacetsOfAppend` | src/App.tsx:31-52 | appending a listing adds exactly its instruments and its suburb to the facets |
| `App.AscendingIsWeakOrder` | src/App.tsx:45 | the default string order used by `sort()` is a strict weak order, so the sort lemmas apply to it |
| `App.SortDistinct` | src/App.tsx:45 | sorting a duplicate-free list gives the same elements in strictly ascending order |
| `App.AvailableInstruments` | src/App.tsx:40-46 | the result holds exactly the instruments taught in the store, each once, in strictly ascending order |
| `App.AvailableSuburbs` | src/App.tsx:48-52 | the result holds exactly the suburbs of the store, each once, in strictly ascending order |
| `App.BehindIsWeakOrder` | src/App.tsx:97-105 | each of the four comparators orders tutors by a strict weak order, so the sort is well defined |
| `App.SortedTutors` | src/App.tsx:94-109 | the result is the stable sort of the filtered list: a permutation of it; non-increasing by rating, non-decreasing or non-increasing by rate, or non-increasing by experience, per option; tied tutors in filtered order |
| `App.AppState.constructor` | src/App.tsx:12-20 | start-up: the seed store, no selection, empty query, sorted by rating, logged out, no overlay, browse screen |
| `App.AppState.CurrentScreen` | src/App.tsx:111-226 | the dashboard is shown iff logged in; otherwise the browse screen with the contact overlay for the selected tutor and the login overlay when its flag is set |
| `App.AppState.HandleLogin` | src/App.tsx:22-25 | login always succeeds: logged in, login overlay closed, every other piece of state unchanged |
| `App.AppState.HandleLogout` | src/App.tsx:27-29 | logout returns to the browse screen; store, filters, sort and overlays unchanged |
| `App.AppState.HandleCreateAdvertisement` | src/App.tsx:31-37 | the store grows by exactly one record at the end, the input with the supplied id; earlier records and all other state unchanged |
| `App.AppState.OpenLoginModal` | src/App.tsx:136 | the header button opens the login overlay and changes nothing else |
| `App.AppState.CloseLoginModal` | src/App.tsx:225 | closing the login overlay changes nothing else |
| `App.AppState.ContactTutor` | src/App.tsx:210 | a card's contact action selects that tutor and changes nothing else |
| `App.AppState.CloseContact` | src/App.tsx:220 | closing the contact overlay clears the selected tutor and changes nothing else |
| `App.AppState.SetSearchQuery` | src/App.tsx:175 | typing replaces the query and changes nothing else |
| `App.AppState.SetSortBy` | src/App.tsx:182 | choosing an option replaces the sort key and changes nothing else |
| `App.AppState.UpdateSelections` | src/App.tsx:152-161 | the filter panel's callbacks replace the three selections and change nothing else |
| `App.AppState.VisibleTutors` | src/App.tsx:94-109 | the listed tutors are the stable sort of the filtered store by the chosen key: a permutation of the filtered list, in the promised order |
| `Sorting.InsertionSort` | src/App.tsx:99-105 | sorting the array in place leaves exactly the stable sort of its old contents |
| `Sorting.InsertAt` | src/App.tsx:99-105 | one insertion step places the next element behind everything it need not precede and leaves the unsorted rest alone |
| `Sorting.StableSortPermutes` | src/App.tsx:94-95 | the sorted list has exactly the elements of the input, with multiplicities |
| `Sorting.StableSortSorted` | src/App.tsx:97-108 | for a strict weak order, no element of the result must come behind a later one |
| `Sorting.StableSortStable` | src/App.tsx:97-108 | elements the comparator calls equal keep their relative input order |
| `Text.TrimStart` | src/App.tsx:58 | exactly the longest whitespace prefix is removed |
| `Text.TrimEnd` | src/App.tsx:58 | exactly the longest whitespace suffix is removed |
| `Text.TrimEmptyIffBlank` | src/App.tsx:58 | `trim()` gives the empty string iff the input is whitespace only |
| `Text.TrimIsInnerSlice` | src/components/CreateAdvertisement.tsx:66-69 | the trimmed string is the input minus a blank prefix and a blank suffix, and it neither starts nor ends with whitespace |
| `Text.TrimIdempotent` | src/components/CreateAdvertisement.tsx:66-69 | trimming a trimmed value changes nothing |
| `Text.ToLowerNormalises` | src/App.tsx:59-63 | lower-casing keeps the length, leaves no capital letter and is idempotent |
| `Text.ToLowerKeepsWhitespace` | src/App.tsx:59 | lower-casing leaves whitespace in place, so padding in a query survives |
| `Text.ContainsAtOffset` | src/App.tsx:60-63 | `includes` holds iff the needle occurs at some offset, which needs a needle no longer than the text |
| `Text.ContainsEmpty` | src/App.tsx:60 | every string includes the empty string |
| `Text.LexLessTotal` | src/App.tsx:45 | any two different strings are ordered one way or the other by the default sort order |
| `SelectionList.Without` | src/components/FilterPanel.tsx:28 | the value no longer occurs, the other values keep their counts, and the order is kept |
| `SelectionList.Toggle` | src/components/FilterPanel.tsx:26-32 | an absent value is appended at the end; a present one loses every occurrence while the rest keep order and counts; the value's membership flips |
| `SelectionList.WithoutAbsent` | src/components/CreateAdvertisement.tsx:75-80 | removing a value that is not listed leaves the list as it was |
| `SelectionList.ToggleTwiceAbsent` | src/components/FilterPanel.tsx:26-32 | toggling an absent value twice restores the original list |
| `SelectionList.ToggleTwicePresent` | src/components/FilterPanel.tsx:26-32 | toggling a present value twice leaves one copy of it, at the end |
| `SelectionList.ToggleKeepsNoDuplicates` | src/components/FilterPanel.tsx:26-48 | a list without repeats has none after a toggle |
| `FilterPanel.ToggleInstrument` | src/components/FilterPanel.tsx:26-32 | the instrument's checkbox flips; suburbs and days are untouched |
| `FilterPanel.ToggleSuburb` | src/components/FilterPanel.tsx:34-40 | the suburb's checkbox flips; instruments and days are untouched |
| `FilterPanel.ToggleDay` | src/components/FilterPanel.tsx:42-48 | the day's checkbox flips; instruments and suburbs are untouched |
| `FilterPanel.ClearAll` | src/components/FilterPanel.tsx:50-54 | all three selections become empty, so no filter remains |
| `FilterPanel.NoFiltersIffCleared` | src/components/FilterPanel.tsx:56 | `hasFilters` is false iff all three selections are empty |
| `FilterPanel.TogglesKeepDistinct` | src/components/FilterPanel.tsx:26-54 | selections without repeats keep that property under every toggle and after clearing |
| `FilterPanel.ToggleInstrumentTwice` | src/components/FilterPanel.tsx:26-32 | ticking and unticking an instrument restores all selections |
| `Types.WithId` | src/App.tsx:32-35 | the stored record carries the supplied id and every other field of the input unchanged |
| `CreateAdvertisement.BuildListing` | src/components/CreateAdvertisement.tsx:36-46 | an empty image becomes the default URL and a non-empty one is kept verbatim; the numbers are the parsed ones; every other field is copied |
| `CreateAdvertisement.SubmitUntouchedForm` | src/components/CreateAdvertisement.tsx:19-49 | the record `handleSubmit` would build from the initial form: empty name, no instruments or days, the default image and rating 5.0 (the browser's `required` fields keep this form from being submitted as is) |
| `CreateAdvertisement.AdvertisementForm.constructor` | src/components/CreateAdvertisement.tsx:19-31 | the form starts with empty texts, empty lists, rating 5.0 and an empty custom-instrument input |
| `CreateAdvertisement.AdvertisementForm.HandleSubmit` | src/components/CreateAdvertisement.tsx:33-49 | exactly one record, built from the current form without validation, is handed on |
| `CreateAdvertisement.AdvertisementForm.ToggleInstrument` | src/components/CreateAdvertisement.tsx:51-63 | the instrument list is toggled; every other field and the custom input are unchanged; no repeats appear |
| `CreateAdvertisement.AdvertisementForm.AddCustomInstrument` | src/components/CreateAdvertisement.tsx:65-73 | a non-blank trimmed input not yet listed is appended and the input cleared; otherwise the list and the input are unchanged |
| `CreateAdvertisement.AdvertisementForm.RemoveInstrument` | src/components/CreateAdvertisement.tsx:75-80 | every occurrence of the instrument goes; nothing else changes |
| `CreateAdvertisement.AdvertisementForm.ToggleDay` | src/components/CreateAdvertisement.tsx:82-94 | the day list is toggled; every other field is unchanged |
| `CreateAdvertisement.AdvertisementForm.SetName` | src/components/CreateAdvertisement.tsx:111 | the name field takes the typed text; nothing else changes |
| `CreateAdvertisement.AdvertisementForm.SetImage` | src/components/CreateAdvertisement.tsx:126 | the image field takes the typed text; nothing else changes |
| `CreateAdvertisement.AdvertisementForm.SetCustomInstrument` | src/components/CreateAdvertisement.tsx:172 | the custom-instrument input takes the typed text; the form is unchanged |
| `CreateAdvertisement.AdvertisementForm.SetSuburb` | src/components/CreateAdvertisement.tsx:197 | the suburb field takes the typed text; nothing else changes |
| `CreateAdvertisement.AdvertisementForm.SetHourlyRate` | src/components/CreateAdvertisement.tsx:235 | the rate field takes the typed text; nothing else changes |
| `CreateAdvertisement.AdvertisementForm.SetExperience` | src/components/CreateAdvertisement.tsx:252 | the experience field takes the typed text; nothing else changes |
| `CreateAdvertisement.AdvertisementForm.SetBio` | src/components/CreateAdvertisement.tsx:267 | the bio field takes the typed text; nothing else changes |
| `TutorDashboard.Dashboard.constructor` | src/components/TutorDashboard.tsx:12 | the dashboard starts on the prompt, with no form mounted |
| `TutorDashboard.Dashboard.Content` | src/components/TutorDashboard.tsx:45-65 | the form is shown iff `showCreateForm` is set; otherwise the prompt |
| `TutorDashboard.Dashboard.OpenCreateForm` | src/components/TutorDashboard.tsx:53 | the prompt's button shows a freshly mounted, empty form |
| `TutorDashboard.Dashboard.Cancel` | src/components/TutorDashboard.tsx:63 | cancel returns to the prompt and leaves the top-level state untouched |
| `TutorDashboard.Dashboard.HandleCreate` | src/components/TutorDashboard.tsx:14-17 | the record is appended to the store exactly once, unchanged apart from its id, and the prompt returns |
| `TutorDashboard.Dashboard.Submit` | src/components/TutorDashboard.tsx:62 | the record built from the form as it was is appended to the store, with rating 5.0 since no handler changes the form's rating, and the prompt returns |
| `TutorDashboard.Dashboard.Logout` | src/components/TutorDashboard.tsx:33 | logout only runs the top-level logout; the dashboard's own state is unchanged |
| `TutorDashboard.LoginCreateLogout` | src/components/CreateAdvertisement.tsx:33-49 | after login, a form with every browser-required field filled but no instrument and no day ticked is submitted; after logout the browse screen is back and the store ends with that listing, with empty instrument and day lists |

## Left out

- Rendering: JSX, CSS classes, icons, and all of `TutorCard`. The result count and the "No tutors found" text are not modelled.
- `ContactModal`, `LoginModal` and `ImageWithFallback` are not part of this model. Their only effects here are the callbacks they invoke: close, login, contact.
- The seed data (`mockTutors`) is not part of this model; the store starts from an arbitrary sequence.
- `Date.now()` is a clock. The new id is a parameter of `App.AppState.HandleCreateAdvertisement`, and its uniqueness is not claimed because the code does not guarantee it.
- `parseFloat` and `parseInt` in `handleSubmit` are not modelled. `CreateAdvertisement.AdvertisementForm.HandleSubmit` takes the parsed rate as a `real` and the parsed experience as an `int`.
- Floating point is not modelled. `NaN` cannot arise, so the comparators here are always consistent; in the source a `NaN` rate or experience makes them inconsistent. Rates and ratings are exact reals, with no rounding in the comparators' subtraction.
- `Text.ToLowerNormalises`: lower-casing is modelled on ASCII letters only; other characters are left unchanged, unlike full Unicode `toLowerCase`.
- `Text.LexLessTotal`: strings are compared by code point; JavaScript compares UTF-16 code units. The two orders differ only for characters above U+FFFF against characters from U+E000 to U+FFFF.
- `App.AvailableInstruments` and `App.AvailableSuburbs`: their results are in code-point order. For values that mix characters above U+FFFF with characters from U+E000 to U+FFFF, the source's `sort()` orders them differently. For example, it puts "😀" before "\u{E000}", and the model puts it after.
- `App.SortedTutors` is specified by the unique result of a stable sort with the given comparator. The engine's own algorithm is not modelled; any stable sort gives the same result with these comparators. The `default` branch of the sort switch is left out: the four-valued `SortKey` never reaches it.
- `useMemo` caching and React's re-render scheduling are left out; derived views are computed from the current state.
- The browser's `required` and `min` checks on the form inputs are left out: that validation lives in the browser.
- `e.preventDefault()` in `handleSubmit` and in the custom-instrument Enter key handler is left out. The Enter key handler calls the same `AddCustomInstrument`.
- Mounting and unmounting are approximated. A `TutorDashboard.Dashboard` object stands for one mounting of the dashboard. Its `form` field is non-null exactly while the form is mounted, so reopening the form starts from the initial form data. The caller creates the dashboard object; `App.AppState` does not, and no dashboard method requires `app.isLoggedIn`.
- The claim that sorting by `price-low` and by `price-high` gives reversed orders for distinct rates is not proved. Only each option's own ordering and stability are proved.
