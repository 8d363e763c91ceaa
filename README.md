# Country browser: the rules behind the pages

This project is a Dafny model of the logic inside a small React application. The application lists the world's countries. It has a page per country, with a view counter and a "save" button, and a page of saved countries. It exists in four near-duplicate versions (0 to 3). The model covers the rules that decide what those pages show:

- **Loading the list** (`App`, versions 1 and 3): the remote list sorted by `name.common`, or a sorted copy of the bundled `localData` on any failure. Version 3 also has a `loading` flag that gates the routes. The comparator `localeCompare` is an abstract total preorder. `Array.prototype.sort` is stable, as section 23.1.3.30 of ECMA-262 requires; the model uses a stable insertion sort and proves that every stable sort gives the same result.
- **Finding the country named in the URL** (`CountryDetail`, versions 1 to 3). The outcomes are Pending, NotFound, Found, and a render that throws on a record without a name.
- **The view counters.**
  - Version 2 keeps the count in `localStorage`. It increments from a deferred callback behind a guard that every effect run resets. React's scheduling is replaced by explicit traces of effect runs and callbacks.
  - Version 3 guards one server POST with a flag that is never reset, and parses the reply text into a count that is never NaN.
- **The saved set keyed by `cca3`.** This covers the append-once save with its `savedCountriesUpdated` event, and the version-2 saved page that reloads on that event. Version 3 fetches countries without `cca3`; because an absent code equals an absent code, one save marks every country as saved, and the model reproduces this.
- **Enriching saved names** (version-3 saved page): names are normalised from the server's reply, then looked up one by one. Each lookup keeps its first hit or a placeholder, in order.
- **Cards and the card list**: `||` defaults, the flag image or placeholder box, React keys and link paths.

Browser state is a `Window` object. It holds `localStorage` as a map from keys to values, plus the log of events dispatched on `window`. Network replies, the time at which callbacks run, `toLowerCase`, `toLocaleString` and `encodeURIComponent` are all inputs or function parameters.

## Model

| member | source | states |
|---|---|---|
| Common.OrElse | version-3/src/components/CountryCard.jsx:7-9 | `s \|\| fallback` on an optional string gives the fallback, or a present non-empty value; a present non-empty value always wins |
| NameOrder.Insert | version-3/src/App.jsx:26 | inserting one entity keeps every element: the result's multiset is the old one plus the entity |
| NameOrder.SortByName | version-3/src/App.jsx:26 | the sorted list is a permutation of its input |
| NameOrder.InsertSorted | version-3/src/App.jsx:26 | under a total preorder, inserting into a name-sorted list keeps it sorted |
| NameOrder.SortByNameSorted | version-3/src/App.jsx:26 | under a total preorder, the result is sorted by `name.common` |
| NameOrder.SortByNameStable | version-3/src/App.jsx:26-35 | the sort is stable: entities whose names collate equal keep their source order |
| NameOrder.StableSortUnique | version-3/src/App.jsx:26 | two orderings that are both sorted and keep every tie group's order are equal, so any conforming engine sort gives `SortByName` |
| DatasetLoader.Loaded | version-3/src/App.jsx:21-38 | nothing is stored exactly when the remote payload is rejected (fetch or JSON failure, not an array, or a comparator that throws) and the fallback's sort also throws |
| DatasetLoader.SortThrows | version-3/src/App.jsx:26 | the comparator throws only if some entity has no `name.common`, and a list of at most one entity is never compared |
| DatasetLoader.LoadedIsStableSortOfSource | version-3/src/App.jsx:25-36 | the stored list is the accepted payload or `localData`, sorted, a permutation of it, and stable |
| DatasetLoader.EmptyPayloadAccepted | version-3/src/App.jsx:25-29 | a successful empty array is stored as the empty list, with no fallback |
| DatasetLoader.FallbackWhenRemoteRejected | version-3/src/App.jsx:32-37 | a rejected remote list with all bundled entities named always yields the bundled entities, same count, reordered only |
| DatasetLoader.AppV1.constructor | version-1/src/App.jsx:14 | the list starts empty |
| DatasetLoader.AppV1.Settle | version-1/src/App.jsx:17-35 | when the chain settles, the list becomes the loaded list; it stays as it was when the fallback throws |
| DatasetLoader.AppV3.constructor | version-3/src/App.jsx:14-16 | the list starts empty and `loading` starts true |
| DatasetLoader.AppV3.Settle | version-3/src/App.jsx:19-44 | on both paths the list is stored and `loading` cleared, so routes render; a throwing fallback leaves `loading` on |
| Resolver.Find | version-1/src/pages/CountryDetail.jsx:13-17 | Found is the first record whose case-folded name equals the URL's with every earlier record named and different; NotFound means every record is named and different; Throws means an unnamed record comes before any match |
| Resolver.Resolve | version-1/src/pages/CountryDetail.jsx:9-17 | Pending exactly when the list is missing or empty, otherwise the search's outcome |
| Resolver.ResolveIsExactMatch | version-3/src/pages/CountryDetail.jsx:122-124 | a found country is in the list and its case-folded name equals the case-folded URL name exactly |
| Resolver.PendingDistinctFromNotFound | version-2/src/pages/CountryDetail.jsx:14-28 | "Country not found." only happens for a loaded non-empty list, and a loaded non-empty list is never pending |
| Resolver.ResolveExamples | version-1/src/pages/CountryDetail.jsx:9-17 | "canada" finds "Canada"; "Atlantis" and the prefix "Can" find nothing; an empty list is pending |
| Storage.SavedList | version-2/src/pages/SavedCountries.jsx:53 | an absent `savedCountries` key reads as the empty list |
| Storage.SaveResult | version-2/src/pages/CountryDetail.jsx:72-76 | after a save the country's code is stored; the list grows by one exactly when no stored entry had the code, the appended entry is the country itself, and the old entries stay first and unchanged |
| Storage.IsSaved | version-2/src/pages/CountryDetail.jsx:67 | a stored country is always saved, and nothing is saved in an empty list |
| Storage.SaveKeepsCodesDistinct | version-2/src/pages/CountryDetail.jsx:71-83 | saving never creates two entries with one code, and saving the same country again changes nothing |
| Storage.SaveIdempotent | version-2/src/pages/CountryDetail.jsx:71-76 | for any stored list, saving the same country a second time changes nothing |
| Storage.AbsentCodesCollide | version-3/src/pages/CountryDetail.jsx:86-87 | an absent code equals an absent code, so a country without `cca3` counts as saved once any stored entry lacks one |
| Storage.Window.SaveCountry | version-3/src/pages/CountryDetail.jsx:134-146 | it appends, writes the key and dispatches `savedCountriesUpdated` exactly when the code was not stored; otherwise storage and events are unchanged |
| Storage.Window.constructor | version-2/src/pages/SavedCountries.jsx:53 | the window starts with the given storage and no dispatched event |
| Storage.Window.WriteFromOtherTab | version-2/src/pages/SavedCountries.jsx:61 | another tab's write replaces the stored list, and this window receives one `storage` event |
| CountryDetailV2.CountKey | version-2/src/pages/CountryDetail.jsx:31 | the key is `country-view-count-` followed by the name, character for character |
| CountryDetailV2.CountKeyNotSavedKey | version-2/src/pages/CountryDetail.jsx:31 | a counter key is never `savedCountries`, so the counter and the saved list never overwrite each other |
| CountryDetailV2.ReadCount | version-2/src/pages/CountryDetail.jsx:34-36 | an absent counter reads as 0 |
| CountryDetailV2.Add | version-2/src/pages/CountryDetail.jsx:48 | NaN stays NaN; a number grows by exactly `k` |
| CountryDetailV2.Step | version-2/src/pages/CountryDetail.jsx:44-57 | an effect run turns the guard off and schedules one callback without touching the count; a callback turns the guard on and adds 1 to the stored count only if the guard was off |
| CountryDetailV2.Run | version-2/src/pages/CountryDetail.jsx:42-58 | after a trace, the callbacks not yet run are the effect runs minus the callbacks |
| CountryDetailV2.RunIncrements | version-2/src/pages/CountryDetail.jsx:44-55 | over any feasible trace, the stored count grows by the number of callbacks that directly follow an effect run; the guard is on iff the last event was a callback |
| CountryDetailV2.StrictModeTraces | version-2/src/pages/CountryDetail.jsx:42-58 | two effect runs then two callbacks add 1; run, callback, run, callback adds 2 |
| CountryDetailV2.ShownMatchesStored | version-2/src/pages/CountryDetail.jsx:47-51 | once a callback has counted the view, the shown count equals the stored count |
| CountryDetailV2.CountUnit | version-2/src/pages/CountryDetail.jsx:104 | the unit is "time" iff the count is 1, else "times" (0 included) |
| CountryDetailV2.CountryDetailV2.constructor | version-2/src/pages/CountryDetail.jsx:31-39 | on mount the shown count is the stored one (0 when absent), and the guard is off with no callback scheduled |
| CountryDetailV2.CountryDetailV2.RunCountEffect | version-2/src/pages/CountryDetail.jsx:42-46 | an effect run resets the guard and schedules exactly one callback |
| CountryDetailV2.CountryDetailV2.FireTimer | version-2/src/pages/CountryDetail.jsx:46-57 | a callback acts only while the guard is off: it writes stored + 1 at its key, shows it and sets the guard; with the guard on, storage is unchanged |
| CountryDetailV2.CountryDetailV2.Replay | version-2/src/pages/CountryDetail.jsx:42-58 | delivering a trace event by event reaches the state the trace specifies; storage changes only at the counter key, and `isSaved` is kept |
| CountryDetailV2.CountryDetailV2.CheckSaved | version-2/src/pages/CountryDetail.jsx:65-68 | saved iff some stored entry has this country's code |
| CountryDetailV2.CountryDetailV2.HandleSave | version-2/src/pages/CountryDetail.jsx:71-83 | the whole new storage: unchanged when the code was stored, otherwise only `savedCountries` rewritten with the country appended; the event fires and `isSaved` is set exactly when the country was added |
| CountryDetailV3.CountAfterUpdate | version-3/src/pages/CountryDetail.jsx:37-61 | the count after an update is a number, never NaN: 0, or a number the reply carried; a numeric non-object or non-JSON reply gives its own value, a non-numeric one 0; an object with `count` gives `Number(count)`; a failed request gives 0 |
| CountryDetailV3.CountFieldWins | version-3/src/pages/CountryDetail.jsx:40-42 | an object with a `count` field shows `Number(count)`, whether or not `newCount` is there, and a NaN there gives 0 |
| CountryDetailV3.NewCountFallback | version-3/src/pages/CountryDetail.jsx:43-47 | without `count`, `newCount` decides; with neither the count is 0 |
| CountryDetailV3.ParsedCount | version-3/src/pages/CountryDetail.jsx:40-55 | NaN only comes from an object's deciding `count` or `newCount` field; a non-object or non-JSON reply gives its numeric value, or 0 |
| CountryDetailV3.Step | version-3/src/pages/CountryDetail.jsx:24-70 | an event starts at most one POST, exactly when it is an effect run with the flag off; once the flag is on it stays on and nothing posts; a reply to the POST in flight sets the count to `CountAfterUpdate` of it |
| CountryDetailV3.Run | version-3/src/pages/CountryDetail.jsx:64-70 | a trace posts once exactly when it turns the flag on, and never once the flag was on |
| CountryDetailV3.RunPostsOnce | version-3/src/pages/CountryDetail.jsx:64-70 | over any trace of effect runs and replies, one POST at most, made iff some effect ran; `null` iff no reply yet |
| CountryDetailV3.ViewedLine | version-3/src/pages/CountryDetail.jsx:172-174 | "Loading..." iff the count is null, otherwise the count with "time" iff it is 1 |
| CountryDetailV3.OneSaveMarksAll | version-3/src/pages/CountryDetail.jsx:134-146 | in a list fetched without `cca3`, saving one country marks every country as saved, and later saves change nothing |
| CountryDetailV3.CountryDetailV3.constructor | version-3/src/pages/CountryDetail.jsx:12-19 | the count starts null, the flag off, and not saved |
| CountryDetailV3.CountryDetailV3.RunCountEffect | version-3/src/pages/CountryDetail.jsx:64-70 | an effect run sets the flag, shows null and starts the POST, only while the flag is off |
| CountryDetailV3.CountryDetailV3.ReceiveReply | version-3/src/pages/CountryDetail.jsx:24-62 | the reply sets the count to the parsed, never-NaN number |
| CountryDetailV3.CountryDetailV3.CheckSaved | version-3/src/pages/CountryDetail.jsx:80-88 | with a found country, saved iff some stored entry has its code; otherwise unchanged |
| CountryDetailV3.CountryDetailV3.HandleSave | version-3/src/pages/CountryDetail.jsx:134-146 | for the found country: storage unchanged when its code was stored, otherwise only `savedCountries` rewritten with it appended; the event fires exactly when it was added |
| SavedPageV2.Section | version-2/src/pages/SavedCountries.jsx:148-153 | the "not saved" message iff the list is empty, otherwise cards for exactly the stored list |
| SavedPageV2.SectionAfterSave | version-2/src/pages/SavedCountries.jsx:148-153 | after a save the section shows cards, the saved code is among them, and a newly added country is itself among them |
| SavedPageV2.SavedCountriesV2.constructor | version-2/src/pages/SavedCountries.jsx:47 | the list starts empty with no listener |
| SavedPageV2.SavedCountriesV2.Mount | version-2/src/pages/SavedCountries.jsx:50-61 | mounting loads the stored list as it is and registers both listeners |
| SavedPageV2.SavedCountriesV2.Unmount | version-2/src/pages/SavedCountries.jsx:64-67 | unmounting removes both listeners |
| SavedPageV2.SavedCountriesV2.Deliver | version-2/src/pages/SavedCountries.jsx:52-61 | a listened event reloads exactly the stored list; any other event (or after unmount) changes nothing |
| SavedPageV2.SaveWhileMounted | version-2/src/pages/SavedCountries.jsx:50-68 | saving on the detail page while this page is mounted leaves the page showing exactly the stored list, and rendering the section for the list after the save; a newly added country is itself in it |
| SavedPageV3.EntryName | version-3/src/pages/SavedCountries.jsx:149-158 | a non-empty string is its own name; a record gives `country_name` if truthy, else `country` if truthy, else `name` if truthy, else no name; any other value has no name |
| SavedPageV3.SavedNames | version-3/src/pages/SavedCountries.jsx:99-113 | the reply itself if an array, else its `countries` field, else empty; a failed fetch or parse gives empty |
| SavedPageV3.Placeholder | version-3/src/pages/SavedCountries.jsx:172-178 | the placeholder carries the entry's name and no flag |
| SavedPageV3.Detail | version-3/src/pages/SavedCountries.jsx:168-187 | the first element of a non-empty array; anything else, a thrown lookup included, gives the placeholder |
| SavedPageV3.Enriched | version-3/src/pages/SavedCountries.jsx:146-189 | never longer than the entries, and strictly shorter when some entry has no name |
| SavedPageV3.NameableIndices | version-3/src/pages/SavedCountries.jsx:147-158 | the positions of the nameable entries, increasing, and every one of them |
| SavedPageV3.EnrichedFollowsEntries | version-3/src/pages/SavedCountries.jsx:146-189 | one element per nameable entry, in entry order: element k is the detail of the k-th nameable entry |
| SavedPageV3.PlaceholderKeepsName | version-3/src/pages/SavedCountries.jsx:168-187 | an element either carries the entry's own name or is one of the lookup's matches |
| SavedPageV3.PlaceholderCard | version-3/src/pages/SavedCountries.jsx:172-178 | a placeholder's card shows the saved name, "No capital", "No region", "No data" and the no-flag box |
| SavedPageV3.FetchFullCountryData | version-3/src/pages/SavedCountries.jsx:144-192 | the loop builds exactly the enriched list |
| SavedPageV3.SavedCountriesV3.constructor | version-3/src/pages/SavedCountries.jsx:20-24 | both lists start empty and `loading` true |
| SavedPageV3.SavedCountriesV3.LoadSavedCountryNames | version-3/src/pages/SavedCountries.jsx:97-115 | the names are the normalised reply, and loading is off at the end |
| SavedPageV3.SavedCountriesV3.BeginEnrichment | version-3/src/pages/SavedCountries.jsx:136-145 | no names clears the list with no lookup; otherwise loading is on |
| SavedPageV3.SavedCountriesV3.CompleteEnrichment | version-3/src/pages/SavedCountries.jsx:146-191 | the list is set to the enriched list, and loading is off |
| Cards.FirstCapital | version-3/src/components/CountryCard.jsx:8 | the first capital exists iff the array is present and non-empty |
| Cards.PopulationText | version-3/src/components/CountryCard.jsx:10 | there is a population text iff the field is present |
| Cards.WithDefaults | version-3/src/components/CountryCard.jsx:7-10 | each text is the field (or first capital, or population text) when present and non-empty, else its default; a missing population shows "No data" |
| Cards.CardV3 | version-3/src/components/CountryCard.jsx:11-31 | an image iff `flags.png` is truthy, with that source; otherwise the placeholder box |
| Cards.CardV0 | version-0/src/components/CountryCard.jsx:7-16 | an image always, with `flags.png` or the empty string as its source |
| Cards.CardVersionsAgree | version-0/src/components/CountryCard.jsx:7-16 | versions 0 and 3 show the same text; version 3 shows an image iff version 0's source is non-empty |
| Cards.PresentFieldsShown | version-3/src/components/CountryCard.jsx:7-10 | for any country: a numeric population with a non-empty formatted text (0 included) is shown formatted in both versions, only a missing one shows "No data"; present non-empty name, region and capital are shown as they are |
| Cards.KeyFor | version-3/src/components/CountryCardList.jsx:15 | the key is the code if truthy, else the name if truthy, else the index, each step stated |
| Cards.LinkPath | version-3/src/components/CountryCardList.jsx:21 | `/country/` followed by the encoded name, or the encoded text "undefined" for a missing name |
| Cards.Item | version-3/src/components/CountryCardList.jsx:15-28 | a link iff links are on, and the card inside carries the link's key |
| Cards.CardList | version-3/src/components/CountryCardList.jsx:14-29 | one element per country |
| Cards.CardListShowsEach | version-3/src/components/CountryCardList.jsx:8-29 | element i shows country i's card under its key; it is a link to `/country/` plus the encoded name iff `withLinks` is not false |
| Cards.KeysDistinct | version-3/src/components/CountryCardList.jsx:15 | with every code present and distinct, keys are unique |

## Left out

- Network and JSON: every `fetch`, `response.json()` and `response.text()` is an input value. Stored lists are assumed to round-trip through `JSON.stringify`/`JSON.parse`. Numeric text that does not parse back through `parseInt(String(n))` is not modelled.
- Numbers: `Number()` and `parseInt` are partial maps to integers, with None for NaN. Fractions, whitespace handling and `Infinity` are not modelled.
- Locale and Unicode: `localeCompare` is only a total preorder, and `toLowerCase`, `toLocaleString` and `encodeURIComponent` are parameters.
- Sort internals: the comparator throws on an unnamed entity. The model says the sort throws iff there are two or more entities and one of them is unnamed. It does not model which argument position the engine passes an entity in, or a sort that reorders part of the array before it throws.
- Record shape: `name` and `name.common` are folded into one optional field. A non-object `name` is not modelled.
- A `savedCountries` key holding something other than a list reads as the empty list. A truthy `countries` field in the names reply that is not an array is not modelled.
- Entry fields (`country_name`, `country`, `name`) are taken to be strings or absent. A truthy non-string value is not modelled.
- Scheduling: React effects, StrictMode's double run and `setTimeout` are explicit event traces, not a scheduler. Concurrent replies and races between requests are not modelled.
- CountryDetailV3.RunPostsOnce: a reply arriving with no request in flight cannot happen, and the model ignores one.
- The version-3 saved page listens on `document`, while the detail page dispatches on `window`. That listener therefore never fires, so the version-3 page has no save-then-reload property.
- The profile forms on the saved pages (`handleSubmit`, the user endpoints) are not part of this model: they are free-text I/O.
- `version-1/src/components/CountryCardList.jsx` is not part of this model. Its key is `country.cca3 || country.name`, where `name` is the whole name object, not `name.common`; React turns that object into the text "[object Object]", so every card without a truthy `cca3` gets the same key.
- CountryDetailV2.CountryDetailV2: moving to another country inside one mounted version-2 page is not modelled. The key is fixed per instance. In the code, the next effect run uses the new key, and a callback still pending writes the old key and sets the shared guard, so the new country's callback is skipped. The shown count is also not read again from storage.
- CountryDetailV3.CountryDetailV3: the search result is fixed per instance. In the code, a new `countryName` inside one mounted version-3 page changes which country the saved-flag effect checks and which country the save button stores; the model does not capture that. Only the POST guard (`RunPostsOnce`) covers a country change, since its effect runs are part of the trace.
- Hooks called after early returns in version 2 are a React runtime concern, and are not modelled.
- In version 3 the POST body reads `country` from the render that ran the effect. Before the list loads, or for an unknown name, that read throws, and the model counts it under the failed-request outcome, which shows 0.
- Three behaviours of the code worth noting:
  - A successful empty payload is stored as it is.
  - A fallback whose sort throws stores nothing, so version 3 stays on "Loading countries..." forever.
  - Version 3 fetches countries without `cca3`, which marks every country as saved after the first save.
