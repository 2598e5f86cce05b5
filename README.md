# Smart Farm Planner Pro — a Dafny model of its planning logic

Smart Farm Planner Pro is a browser app for farm planning. The user enters a
farm's address, land and crop details. The app then shows a simulated soil
report, ranks crops from a static dataset for the farm's state, charts
aggregates of that dataset, and offers a chat with an agricultural assistant.
Almost all of the code is markup. This project models the parts that are not:

- **Recommendation ranking** (`recommendations.dfy`, `ranking.dfy`). The
  candidate records are those of the user's state. The user's state is
  lower-cased and trimmed; a record's state is only lower-cased. When the
  state is blank or matches no record, the whole dataset is used. The
  candidates are stably sorted by yield, highest first. The `'all'` filter
  then keeps the first twelve; a category filter keeps every record of that
  category, with no cap. The PDF export's numbered top-ten listing is
  modelled as a sequence of text lines.
- **Farm details form** (`farm_form.dfy`). A class whose fields are the
  form's state: the field record, the crop suggestions, whether they are
  shown, and the location-lookup flag. Its methods are the handlers. Pure
  functions give the single-field update, the comma-joined full address, the
  crop autocomplete (case-insensitive substring, at most five, only past one
  character), and the reverse-geocoding autofill with its `||` fallbacks.
- **View orchestration** (`app.dfy`). A class for the page, dashboard tab,
  dark-mode flag, profile, soil report and dataset. Its invariant is that the
  dashboard is only reached with a profile, and that a soil report exists
  exactly while a profile does. The redirect guard in `renderContent` is a
  method.
- **Chat history** (`chat.dfy`). A class with an append-only message list,
  the typed input and the in-flight flag. The invariant is that after the
  greeting, user and bot messages alternate. The assistant's reply is an
  oracle argument: a text or a failure.
- **Dataset aggregates** (`insights.dfy`). The top seven records by yield,
  and the per-category counts. The counts come from a loop over a map, proved
  against a specification of the distinct categories and their counts.
- **Record shapes** (`types.dfy`). The records of `types.ts` and its
  string-literal unions as datatypes.

Helpers for JavaScript string behaviour (`toLowerCase`, `trim`, `includes`,
`join`, number-to-text) are in `strings.dfy`. Order-preserving sequence
selections (`filter`, subsequences, first-occurrence deduplication) are in
`seqs.dfy`. `wrappers.dfy` holds the `Option` type.

## Model

| member | source | states |
|---|---|---|
| Types.ParseAreaUnit | types.ts:9 | a text names an area unit exactly when it is one of acres, hectares, bigha, katha, and then it names that one |
| Types.ParseWaterSource | types.ts:11 | a text names a water source exactly when it is one of rain, bore, canal, river, tank |
| Types.ParseBudget | types.ts:12 | a text names a budget exactly when it is one of low, medium, high |
| Types.ParseSender | types.ts:46 | a message sender is exactly user or bot |
| Seqs.Filter | src/components/CropRecommendations.tsx:21 | `.filter`: the result is no longer than the input, every kept element passes the test, and an element is kept exactly when it is in the input and passes; `FilterMultiset` adds that each one is kept as often as it occurs |
| Strings.ToLower | src/components/CropRecommendations.tsx:17 | lower-casing keeps the length and leaves no upper-case letter in the result |
| Strings.LowerChar | src/components/CropRecommendations.tsx:17 | an upper-case letter becomes the letter 32 code points above it, every other character is unchanged, and no upper-case letter comes out |
| Strings.LowerCharEqual | src/components/CropRecommendations.tsx:21 | two characters lower-case alike exactly when they are the same letter up to case |
| Strings.ToLowerEqual | src/components/CropRecommendations.tsx:21 | two texts lower-case to the same text exactly when they agree up to the case of letters |
| Strings.ToLowerIdempotent | src/components/CropRecommendations.tsx:17 | lower-casing twice is lower-casing once |
| Strings.Trim | src/components/CropRecommendations.tsx:17 | the trimmed text is a contiguous slice of the input with only whitespace cut away on either side; it is empty exactly when the input is all whitespace, otherwise it neither starts nor ends with whitespace, and input with no whitespace at either end is unchanged |
| Strings.Contains | src/components/FarmDetailsForm.tsx:29 | `includes` holds exactly when the needle occurs at some position |
| Strings.Join | src/components/FarmDetailsForm.tsx:45 | `join(', ')`; its meaning is carried by `SplitJoin` (splitting the joined text gives the pieces back when none contains the separator's first character) and `JoinEmpty` (with no empty piece, the joined text is empty exactly when there are no pieces) |
| Strings.SplitJoin | src/components/FarmDetailsForm.tsx:45 | joining pieces that lack the separator's first character and splitting again gives the pieces back |
| Strings.NatToStringRoundTrip | src/components/CropRecommendations.tsx:69 | reading back the decimal text of a rank gives the rank |
| Ranking.SortByYield | src/components/CropRecommendations.tsx:27 | the sorted copy is a permutation of its input with yields non-increasing |
| Ranking.SortByYieldIsStable | src/components/CropRecommendations.tsx:27 | records of equal yield keep their input order (a stable sort) |
| Ranking.SortFilterCommute | src/components/CropRecommendations.tsx:27-33 | filtering the ranking equals ranking the filtered records |
| Ranking.RankedSelection | src/components/CropRecommendations.tsx:33 | ranking a selection keeps exactly the selected records, and is empty only when nothing is selected |
| Ranking.Top | src/components/Insights.tsx:14-16 | sort by yield, then keep the first k; by `TopIsTop` it has min(k, n) records, sorted, drawn from the input, and nothing left out outranks a kept record |
| Ranking.TopIsTop | src/components/Insights.tsx:14-16 | the top k has min(k, n) records, sorted, drawn from the input, and none left out yields more than one kept |
| Recommendations.NormalizeState | src/components/CropRecommendations.tsx:17 | `toLowerCase().trim()` of the user state; by `NormalizeStateFacts` it is empty exactly for a blank state and holds no upper-case letter |
| Recommendations.NormalizeStateFacts | src/components/CropRecommendations.tsx:17-19 | the guard `if (lowerCaseUserState)` passes exactly when the user state is not blank, and the compared text holds no upper-case letter |
| Recommendations.StateCandidates | src/components/CropRecommendations.tsx:17-25 | a blank user state, or one that matches no record, gives the whole dataset; otherwise the candidates are the non-empty subsequence of records whose lower-cased state equals the trimmed, lower-cased user state, each record kept exactly as often as it occurs in the dataset |
| Recommendations.StateMatchIgnoresCase | src/components/CropRecommendations.tsx:17-21 | user states that differ only in letter case give the same candidates, and records whose states differ only in case are matched alike |
| Recommendations.View | src/components/CropRecommendations.tsx:27-33 | the result is sorted by yield; under `'all'` it is the first min(12, n) of the ranked candidates; otherwise it is the ranking of the candidates of that category |
| Recommendations.CategoryViewContents | src/components/CropRecommendations.tsx:33 | a category view holds every candidate of that category as often as it occurs, and nothing else, with no cap; it is empty exactly when no candidate matches |
| Recommendations.AllViewIsStable | src/components/CropRecommendations.tsx:27-30 | under `'all'`, the records of one yield are the first records of that yield in candidate order |
| Recommendations.CategoryViewIsStable | src/components/CropRecommendations.tsx:27-33 | in a category view, the records of one yield appear in candidate order |
| Recommendations.Recommend | src/components/CropRecommendations.tsx:16-34 | recommendations are dataset records sorted by yield; at most twelve under `'all'`; all of the filter's category otherwise |
| Recommendations.CategoryButtonsAreLowerCase | src/components/CropRecommendations.tsx:11 | every filter button label is its own lower-case form, so it can equal a lower-cased category |
| Recommendations.AllViewOfFew | src/components/CropRecommendations.tsx:27-30 | with at most twelve candidates, the `'all'` view is the whole ranking |
| Recommendations.ExportLine | src/components/CropRecommendations.tsx:69 | the line template; by `ExportLineIsNumbered` it starts with the rank, `. ` and the crop name, and its leading digits read back as the rank |
| Recommendations.ExportListing | src/components/CropRecommendations.tsx:66-70 | the export's numbered section; by `ExportListingIsNumbered` it has min(10, n) lines in recommendation order, line i numbered i + 1 and naming crop i |
| Recommendations.ExportLineIsNumbered | src/components/CropRecommendations.tsx:69 | an export line starts with its rank, then `. ` and the crop name, and its leading digits read back as the rank |
| Recommendations.ExportListingIsNumbered | src/components/CropRecommendations.tsx:66-70 | the export lists min(10, n) crops in recommendation order; line i starts with the number i + 1, then the crop name |
| RecommendationScenario.MaharashtraScenario | src/components/CropRecommendations.tsx:17-30 | any three Maharashtra records with yields 100, 500, 300, placed among a Punjab and a Kerala record of any yield, are recommended as 500, 300, 100 under `'all'` |
| RecommendationScenario.MaharashtraCandidates | src/components/CropRecommendations.tsx:17-25 | for user state `Maharashtra`, only the Maharashtra records are candidates, in dataset order |
| FarmForm.Update | src/components/FarmDetailsForm.tsx:19-22 | the field named by `id` holds the new value; every other field, the crop name included, is unchanged |
| FarmForm.UpdateWithCurrentValue | src/components/FarmDetailsForm.tsx:21 | writing back a field's current value leaves the form unchanged |
| FarmForm.FullAddress | src/components/FarmDetailsForm.tsx:45 | the full address is empty exactly when all five address fields are empty |
| FarmForm.FullAddressSegments | src/components/FarmDetailsForm.tsx:45 | split at `", "`, a non-empty full address gives back exactly the sequence of non-empty address fields in street, town, district, state, pincode order, repeats included: no empty segment, none missing |
| FarmForm.FullAddressWithoutStreet | src/components/FarmDetailsForm.tsx:45 | with street and district blank, the address is town, state and pincode joined by `", "` |
| FarmForm.FullAddressExample | src/components/FarmDetailsForm.tsx:45 | town Pune, state MH, pincode 411001 and the rest blank give `"Pune, MH, 411001"` |
| FarmForm.Submission | src/components/FarmDetailsForm.tsx:46 | the submitted profile is the form's fields plus the derived full address |
| FarmForm.Suggestions | src/components/FarmDetailsForm.tsx:27-32 | at most five suggestions; each one's lower-cased name contains the lower-cased input; they are the first matches in dataset order, and all matches when fewer than five |
| FarmForm.SuggestionsIgnoreCase | src/components/FarmDetailsForm.tsx:29-30 | inputs that differ only in letter case give the same suggestions |
| FarmForm.NameMatchIgnoresCase | src/components/FarmDetailsForm.tsx:30 | whether a crop name matches an input does not depend on the case either is written in |
| FarmForm.FirstTruthy | src/components/FarmDetailsForm.tsx:61-65 | the result is the first present, non-empty candidate, or `""` exactly when there is none |
| FarmForm.FallbackChains | src/components/FarmDetailsForm.tsx:61-65 | each fallback chain of one, two or three candidates ending in the empty string picks its first truthy member |
| FarmForm.ApplyGeoAddress | src/components/FarmDetailsForm.tsx:59-66 | street is road else suburb; town is village else town else city; district is county else state district; state and pincode are taken as given; `''` counts as absent; no other field changes |
| FarmForm.FarmDetailsForm.constructor | src/components/FarmDetailsForm.tsx:10-17 | the form starts blank: acres, rain, low budget, no land area, no suggestions shown, no lookup running |
| FarmForm.FarmDetailsForm.HandleChange | src/components/FarmDetailsForm.tsx:19-22 | the form becomes the single-field update of the old form |
| FarmForm.FarmDetailsForm.HandleCropInputChange | src/components/FarmDetailsForm.tsx:24-36 | the typed text becomes the current crop; past one character the suggestions are recomputed and shown; otherwise they are hidden but kept |
| FarmForm.FarmDetailsForm.HandleCropFocus | src/components/FarmDetailsForm.tsx:118 | focusing the crop input shows the suggestions when more than one character is typed, and otherwise changes nothing |
| FarmForm.FarmDetailsForm.HandleSuggestionClick | src/components/FarmDetailsForm.tsx:38-41 | the picked name becomes the current crop and the suggestions are hidden |
| FarmForm.FarmDetailsForm.HandleSubmit | src/components/FarmDetailsForm.tsx:43-47 | the record handed on is the current form plus its full address; the form is not changed |
| FarmForm.FarmDetailsForm.GetLocation | src/components/FarmDetailsForm.tsx:49-51 | a lookup is marked as running only when geolocation is available |
| FarmForm.FarmDetailsForm.FinishLocation | src/components/FarmDetailsForm.tsx:57-75 | a response with an address autofills the address fields; any other outcome leaves the form alone; the running flag is cleared in every case |
| AppState.SoilReport | src/App.tsx:55-63 | a fresh report has five entries named pH Level, Nitrogen (N), Phosphorus (P), Potassium (K), Organic Carbon, with their ideal ranges, carrying the given readings |
| AppState.SoilReportShape | src/App.tsx:56-62 | two reports differ only in their values |
| AppState.App.constructor | src/App.tsx:15-20 | the initial state is the welcome page, the report tab, light mode, no profile, an empty soil report and an empty dataset |
| AppState.App.FinishCropLoad | src/App.tsx:22-34 | a loaded dataset replaces the crop list; a failed load leaves it as it was, so it stays empty; the page invariant is kept |
| AppState.App.ToggleDarkMode | src/App.tsx:46 | only the dark-mode flag flips; the page invariant is kept |
| AppState.App.Start | src/App.tsx:76 | the start action moves to the form page |
| AppState.App.HandleFormSubmit | src/App.tsx:48-53 | submission stores the profile, replaces the soil report with a fresh one, and opens the dashboard on the report tab |
| AppState.App.ChangeTab | src/App.tsx:86-88 | a tab change alters only the dashboard tab |
| AppState.App.StartOver | src/App.tsx:66-70 | start-over clears the profile and soil report and goes to welcome; the tab and dark mode are kept |
| AppState.App.RenderContent | src/App.tsx:73-102 | the dashboard without a profile redirects to the form and shows nothing; a dashboard is only shown with the current profile and tab; in a valid state the guard never fires |
| AppState.StartOverThenResubmit | src/App.tsx:48-70 | after a start-over and a new submission, the dashboard shows the new profile with a report of the new readings, not the discarded one |
| AppState.ToggleTwice | src/App.tsx:46 | toggling dark mode twice restores the flag and leaves page, tab, profile, report and crop list as they were |
| Chat.CanSend | src/components/Chatbot.tsx:20 | the input is not blank and no send is in flight; by `CanSendIsGuard` this is exactly the negation of `input.trim() === '' \|\| isLoading` |
| Chat.CanSendIsGuard | src/components/Chatbot.tsx:20 | the send guard holds exactly when the trimmed input is non-empty and nothing is in flight |
| Chat.BotMessage | src/components/Chatbot.tsx:28-33 | a reply becomes one bot message: its text on success, the fixed apology on failure |
| Chat.Chatbot.constructor | src/components/Chatbot.tsx:6-10 | the history starts as exactly the bot greeting, with empty input and nothing in flight |
| Chat.Chatbot.SetInput | src/components/Chatbot.tsx:74 | typing sets the input field and keeps the history invariant |
| Chat.Chatbot.BeginSend | src/components/Chatbot.tsx:19-25 | input that is empty after trimming, or a send in flight, changes nothing; otherwise the untrimmed input is appended as a user message and becomes the prompt, the input is cleared, and loading is set |
| Chat.Chatbot.PostUserMessage | src/components/Chatbot.tsx:22-25 | a send that passed the guard appends the typed text as a user message, clears the input and sets loading, keeping the history alternating |
| Chat.Chatbot.CompleteSend | src/components/Chatbot.tsx:27-36 | exactly one bot message, the reply or the apology, is appended, and loading is cleared |
| Chat.Chatbot.HandleSend | src/components/Chatbot.tsx:19-37 | a send that passes the guard appends the user message and then its one answer and ends with nothing in flight; earlier messages never change |
| Insights.TopCropsByYield | src/components/Insights.tsx:13-17 | the chart shows min(7, n) dataset records, sorted by yield, and none left out yields more than one shown |
| Insights.CategoryOf | src/components/Insights.tsx:21 | an empty category counts as `'Uncategorized'`, any other category under its own name, so no record is counted under the empty name |
| Insights.TallyStep | src/components/Insights.tsx:21-23 | bumping the count of one more category keeps the keys the distinct categories seen, in first-occurrence order, and each count the number of occurrences |
| Insights.Entries | src/components/Insights.tsx:26 | the plain `Object.entries` step: one entry per key, in key order, each carrying that key's count; what the entries mean is carried by `EntriesOfTally` (a full tally's entries are the distribution) |
| Insights.EntriesOfTally | src/components/Insights.tsx:20-26 | the entries of a tally of all records are the category distribution |
| Insights.CategoryDistribution | src/components/Insights.tsx:19-27 | the entries are the distinct categories in first-occurrence order, each with the number of records counted under it |
| Insights.DistributionFacts | src/components/Insights.tsx:20-26 | each category appears once, with a count of at least 1, under a non-empty name; every record's category is present; the counts add up to the number of records |

## Left out

- The crop dataset fetch, the reverse-geocoding request and the browser geolocation call are not performed. Their outcomes are method arguments: `App.FinishCropLoad`, `FarmDetailsForm.GetLocation` and `FarmDetailsForm.FinishLocation`.
- The assistant service in `src/services/geminiService.ts` is not part of this model. Its reply is an argument of `Chatbot.HandleSend` and `Chatbot.CompleteSend`: a text or a failure. That service catches its own errors and answers with apology texts of its own. So the failure arm only covers a rejection that escapes it.
- `handleSend` awaits the assistant. The model splits it at that point into `BeginSend` and `CompleteSend`, and also gives the whole handler as one atomic `HandleSend`. React's batching and re-render timing are not modelled.
- Soil values come from `Math.random` and are formatted with `toFixed`. They are given as already-formatted readings (`SoilReadings`); their numeric ranges and the random source are not modelled.
- PDF drawing with jsPDF is not modelled: fonts, coordinates, the `yPos` counter, the title, the farm-details and soil sections, and saving. Only the numbered top-ten lines are modelled.
- All JSX, styling, the recharts rendering, the Leaflet map of `src/components/AnalysisReport.tsx`, and the header and welcome components are left out. So is the `dark` class on the document element.
- The active category filter is React state of `CropRecommendations`. It is a parameter of `Recommend`, since setting it only picks a button label.
- `toLowerCase` is modelled on ASCII letters only; full Unicode case mapping is left out. `.length` counts characters, where JavaScript counts UTF-16 code units.
- `handleChange` receives DOM text, so the number input's land area is really stored as text. The model keeps the field's declared type `number | ''` and takes a typed value whose shape matches the field.
- Yields are integers, as the `b - a` comparator needs nothing else. `NaN` and non-numeric yields are not modelled. The other numeric dataset fields, except the integer `crop_year`, are reals; none of them is computed with.
- `Object.entries` lists integer-like keys first, and keys such as `__proto__` or `constructor` interact with the object prototype. The model uses plain insertion order for every category name.
- The `default` branch of `renderContent` is unreachable for a typed page, so it is not modelled.
- FarmForm.FullAddressSegments: states the segment property only when no address field contains a comma. With commas inside a field, the pieces of a split cannot be told apart from the fields.
- FarmForm.FarmDetailsForm: the `allCrops` prop is fixed when the form is built. In `App.tsx` it is the app's crop state, which the dataset load can replace while the form is shown; the model does not re-render the form with the new list.
- The `console.error` logging of a failed dataset load (`src/App.tsx:32`), a failed reverse-geocoding request and a geolocation error (`src/components/FarmDetailsForm.tsx:69` and `:73`) is left out: it writes to the browser console only and changes no state.
