# Molecule service, carousel and ingredient dropdown — a Dafny model

This project models the logic core of a skincare-ingredient viewer written in TypeScript:

- **`MoleculeService`** (`src/services/moleculeService.ts`): resolving a molecule name to a
  PubChem compound identifier (CID), through a fixed alias table or a lookup that is retried
  up to three times and deduplicated per raw name; fetching a 3D structure (SDF);
  initializing and tearing down a single 3Dmol viewer; and `visualizeMolecule`, which runs
  lookup → structure fetch → 3D display and falls back to the alias table's image when any
  stage fails.
- **`Carousel`** (`src/components/Carousel.tsx`): the next / previous index arithmetic.
- **`Dropdown`** (`src/components/Dropdown.tsx`): the shape filter applied to loaded data,
  the case-insensitive search, and the state a load leaves behind.

Network responses, the rendering engine, timers and image loads are **oracle inputs**. A
lookup sees `responses(i)` on attempt `i`. The viewer initialization sees an
`InitEnvironment`: whether 3Dmol is loaded, the container's visibility at each 100 ms poll
tick, and whether `createViewer` succeeds. `failAt` names the viewer call that throws, if
any. `imageLoads` says whether the fallback image loads. The object's fields (`viewer`,
`initializationPromise`, `requestQueue`) are fields of a Dafny class that its methods update
in place; every viewer call is appended to a `trace` field.

Modules, one concern each:

| file | module | models |
|---|---|---|
| wrappers.dfy | `Wrappers` | `Option`, `Result`, `Outcome` |
| js_text.dfy | `JsText` | `toLowerCase` (ASCII letters), `includes` |
| seqs.dfy | `Seqs` | `Array.prototype.filter`, order-preserving subsequence |
| molecule_errors.dfy | `MoleculeErrors` | the errors the service throws |
| molecule_mappings.dfy | `MoleculeMappings` | `MOLECULE_MAPPINGS` and its lookup |
| retry.dfy | `RetryPolicy` | `retry` |
| pubchem.dfy | `PubChem` | one lookup attempt, the dedup key, `fetch3DStructure` |
| viewer.dfy | `Viewer` | viewer calls, the visibility poll, how initialization settles |
| orchestrator.dfy | `Orchestrator` | `visualizeMolecule`'s decision over stage outcomes |
| molecule_service.dfy | `MoleculeServiceModel`, `MoleculeServiceScenarios` | the `MoleculeService` class and call sequences on it |
| carousel.dfy | `Carousel` | `handleNext`, `handlePrev`, the displayed slide |
| dropdown.dfy | `Dropdown` | `validData`, `getFilteredIngredients`, `loadIngredients` |

Facts about the code that the model keeps:

- The dedup key is `"pubchem:" + name` with the raw name. The name is neither lower-cased
  nor trimmed.
- Aliased names also get a dedup entry, because the alias check runs inside the retried
  operation.
- Only `visualizeMolecule` rejects an empty name. `fetchFromPubChem("")` goes to the lookup.
- The dropdown keeps catalog data only when it is a bare array. Any other value, an object
  wrapping an array included, yields no ingredients.

## Model

| member | source | states |
|---|---|---|
| `MoleculeMappings.MappingKeys` | src/services/moleculeService.ts:1-22 | the alias table has exactly the keys ceramide, cholesterol, fatty-acids, hyaluronan |
| `MoleculeMappings.MappingKeysAreLowerCase` | src/services/moleculeService.ts:1-22 | every key is already lower-case, so a lowered name can match each of them |
| `MoleculeMappings.LookupAlias` | src/services/moleculeService.ts:176-177 | an alias is found exactly when `name.toLowerCase()` is a key, and it is that key's entry |
| `MoleculeMappings.LookupAliasIgnoresCase` | src/services/moleculeService.ts:176 | names that lower to the same text find the same alias |
| `MoleculeMappings.CeramideAlias` | src/services/moleculeService.ts:2-6 | "Ceramide" and "CERAMIDE" both find the ceramide entry, whose CID is 5283565 |
| `MoleculeMappings.UnknownNameHasNoAlias` | src/services/moleculeService.ts:147 | "unknown-xyz", in any case, has no alias |
| `MoleculeMappings.RecordIndex` | src/services/moleculeService.ts:147 | indexing the object literal hits its own keys and also the inherited "constructor" and "__proto__" |
| `MoleculeMappings.ConstructorHitsPrototype` | src/services/moleculeService.ts:176 | "Constructor" is a truthy hit in the object literal, but it has no table entry |
| `MoleculeMappings.LookupAliasAgreesOffPrototype` | src/services/moleculeService.ts:176-177 | away from the two inherited keys, the table lookup and the object indexing agree |
| `RetryPolicy.RetrySpec` | src/services/moleculeService.ts:61-74 | the specification of `retry`: at most `retries` calls, and at least one when any attempt is allowed |
| `RetryPolicy.Retry` | src/services/moleculeService.ts:61-74 | the `for` loop settles as the retry specification does, after at most `retries` calls |
| `RetryPolicy.RetryFromFacts` | src/services/moleculeService.ts:65-72 | from attempt `i`, the result is the last attempt's outcome, every earlier attempt failed, and a failure means all attempts ran |
| `RetryPolicy.RetryContract` | src/services/moleculeService.ts:61-74 | the first success at attempt k is returned after k+1 calls; if all attempts fail, the last error is rethrown after `retries` calls; zero retries throw 'Max retries reached' |
| `RetryPolicy.FailTwiceThenSucceed` | src/services/moleculeService.ts:39 | with MAX_RETRIES = 3, two failures and then a success return the third result after three calls |
| `PubChem.LookupAttempt` | src/services/moleculeService.ts:175-194 | with the table-only alias lookup: an aliased name yields its table CID and ignores the response; otherwise success exactly for an ok response with a non-empty CID list, giving the first CID; transport and HTTP errors fail |
| `PubChem.Resolve` | src/services/moleculeService.ts:175-194 | a lookup not already in flight, using the table-only alias lookup and retried with MAX_RETRIES: between one and three attempts |
| `PubChem.AliasedNameSkipsNetwork` | src/services/moleculeService.ts:176-177 | an aliased name resolves on the first attempt with zero network requests, whatever the network would answer |
| `PubChem.CeramideResolvesLocally` | src/services/moleculeService.ts:2-6 | "Ceramide" resolves to '5283565' with no network request |
| `PubChem.EmptyListsExhaustRetries` | src/services/moleculeService.ts:189-191 | a non-aliased name whose lookups keep returning empty CID lists fails with 'No molecule data found' after three network requests |
| `PubChem.CacheKey` | src/services/moleculeService.ts:169 | the dedup key is "pubchem:" followed by the raw name, which can be read back from it |
| `PubChem.CacheKeyInjective` | src/services/moleculeService.ts:169 | distinct raw names give distinct dedup keys |
| `PubChem.CaseVariantsHaveDistinctKeys` | src/services/moleculeService.ts:169 | "Ceramide" and "ceramide" share an alias but not a dedup key |
| `PubChem.FetchStructure` | src/services/moleculeService.ts:208-216 | the structure fetch never throws; it gives the SDF text exactly when the response is ok |
| `PubChem.LookupAttemptAsWritten` | src/services/moleculeService.ts:176-177 | with prototype-chain indexing, every truthy hit succeeds whatever the response: an own entry gives its table CID, and an inherited property gives "undefined" |
| `PubChem.ConstructorResolvesToUndefined` | src/services/moleculeService.ts:176-177 | as written, "Constructor" resolves to cid "undefined" whatever PubChem answers; the table-only lookup sends it to the network |
| `PubChem.AsWrittenAgreesOffPrototype` | src/services/moleculeService.ts:175-194 | away from the two inherited keys, the attempt as written and the modelled attempt are equal |
| `Viewer.DisplayCalls` | src/services/moleculeService.ts:224-231 | a display is five calls: clear first, render last, addModel(sdf, 'sdf') and setStyle(sticks 0.2, spheres 0.5) among them |
| `Viewer.Issued` | src/services/moleculeService.ts:223-235 | the calls issued inside one `try` are a prefix of the block: all of them, or those up to and including the one that throws |
| `Viewer.MaxPollsIsTickCount` | src/services/moleculeService.ts:87-106 | a poll tick fires before the 5000 ms timeout exactly when its index is below 49 |
| `Viewer.FirstVisibleFromFacts` | src/services/moleculeService.ts:87-100 | the poll finds the first tick at which the container is visible, before the timeout, or none |
| `Viewer.PollForVisibility` | src/services/moleculeService.ts:87-100 | the polling loop returns that first visible tick, which fires in time and sees the container visible |
| `Viewer.InitRejection` | src/services/moleculeService.ts:81-107 | a fresh initialization succeeds exactly when 3Dmol is loaded, the container became visible in time and `createViewer` succeeded; a missing 3Dmol gives '3Dmol.js not loaded' |
| `Viewer.HiddenContainerTimesOut` | src/services/moleculeService.ts:103-106 | a container hidden at all 49 ticks gives 'Viewer initialization timeout' |
| `Orchestrator.Visualize` | src/services/moleculeService.ts:126-154 | the table-only decision: invalid parameters are rejected first; a 3D structure shown is a non-empty SDF of a resolved name; a fallback image is shown only for an aliased name |
| `Orchestrator.RejectsInvalidParameters` | src/services/moleculeService.ts:127-129 | an empty name or a missing container throws 'Invalid parameters' before any stage |
| `Orchestrator.Shows3DExactlyWhenChainSucceeds` | src/services/moleculeService.ts:131-145 | the 3D structure is shown exactly when the lookup succeeds, the structure is a non-empty SDF and the display succeeds |
| `Orchestrator.FallbackPolicy` | src/services/moleculeService.ts:146-153 | after a chain failure, an aliased name shows its fallback image, or fails with 'Failed to load fallback image'; any other name rethrows the chain's error |
| `Orchestrator.FallbackImageComesFromTable` | src/services/moleculeService.ts:147-149 | a fallback image on screen is always the table's image for the lowered name |
| `Orchestrator.StructureFailuresAlike` | src/services/moleculeService.ts:140-143 | an unreachable service, a non-ok response and an empty SDF lead to the same result |
| `Orchestrator.VisualizeAsWritten` | src/services/moleculeService.ts:146-153 | with the `catch` as written, after a failed chain every name the object literal answers takes the fallback branch: its table image for an own entry, the image "undefined" for an inherited property, or 'Failed to load fallback image'; a fallback image is shown only for such names |
| `Orchestrator.ConstructorFallsBackAsWritten` | src/services/moleculeService.ts:147-149 | as written, a failed chain for "Constructor" ends in the fallback branch with the image "undefined"; the table-only decision rethrows the chain's error |
| `Orchestrator.VisualizeAgreesOffPrototype` | src/services/moleculeService.ts:146-153 | away from the two inherited keys, the decision as written and the table-only decision are equal |
| `Orchestrator.CeramideShows3D` | src/services/moleculeService.ts:131-145 | "ceramide" resolves to 5283565, and a non-empty SDF with a working viewer shows the 3D structure |
| `Orchestrator.CholesterolFallsBack` | src/services/moleculeService.ts:140-149 | a non-ok structure response for "cholesterol" shows ./resources/images/molecules/cholesterol.png |
| `Orchestrator.UnknownNameFails` | src/services/moleculeService.ts:146-152 | "unknown-xyz" with three empty CID lists ends in 'No molecule data found' |
| `MoleculeServiceModel.DisplayOutcome` | src/services/moleculeService.ts:218-236 | with a viewer present, the display fails exactly when a viewer call throws; any other failure comes from initializing an absent viewer |
| `MoleculeServiceModel.MoleculeService.constructor` | src/services/moleculeService.ts:43-50 | the fallback image is the configured one or the default path; no viewer, no stored promise, an empty queue |
| `MoleculeServiceModel.MoleculeService.GetFallbackImage` | src/services/moleculeService.ts:52-59 | returns the configured fallback image |
| `MoleculeServiceModel.MoleculeService.PendingRequest` | src/services/moleculeService.ts:171-173 | reports the stored entry exactly when the raw-name key is in the queue |
| `MoleculeServiceModel.MoleculeService.BeginRequest` | src/services/moleculeService.ts:169-173 | a hit returns the stored entry and inserts nothing; a miss stores a new handle, distinct from every pending one, under the key |
| `MoleculeServiceModel.MoleculeService.SettleRequest` | src/services/moleculeService.ts:198-205 | removes the settled key and touches no other key |
| `MoleculeServiceModel.MoleculeService.FetchFromPubChem` | src/services/moleculeService.ts:168-206 | a key in flight returns its entry and changes nothing; otherwise the retried lookup settles, with zero network requests for an alias, and the queue ends as it began, on success and failure alike |
| `MoleculeServiceModel.MoleculeService.InitViewer` | src/services/moleculeService.ts:76-110 | a stored promise is returned unchanged and no second viewer is created; otherwise a new promise is stored, and its viewer becomes `viewer` when it fulfils |
| `MoleculeServiceModel.MoleculeService.Cleanup` | src/services/moleculeService.ts:112-124 | always empties the queue; with a viewer, issues removeAllModels and dispose (up to a throw) and resets both fields; without one, a stored promise survives |
| `MoleculeServiceModel.MoleculeService.CleanupTwice` | src/services/moleculeService.ts:112-124 | a second cleanup leaves the state of the first: calling cleanup twice is safe |
| `MoleculeServiceModel.MoleculeService.CleanupCorrected` | src/services/moleculeService.ts:112-124 | the corrected cleanup always drops the stored initialization promise |
| `MoleculeServiceModel.MoleculeService.Display3DStructure` | src/services/moleculeService.ts:218-236 | initializes an absent viewer first and rethrows its rejection; then records the five display calls up to a throw; the outcome is `DisplayOutcome` |
| `MoleculeServiceModel.MoleculeService.VisualizeMolecule` | src/services/moleculeService.ts:126-154 | the result is the orchestrator's decision on the stage outcomes; the queue ends unchanged; the viewer is touched only when a non-empty SDF reaches the display |
| `MoleculeServiceScenarios.InitTwiceSharesPromise` | src/services/moleculeService.ts:77-79 | two initViewer calls return the same promise |
| `MoleculeServiceScenarios.TeardownThenInit` | src/services/moleculeService.ts:112-124 | after a successful initialization, cleanup and then initViewer give a new, working viewer |
| `MoleculeServiceScenarios.FailedInitSurvivesCleanup` | src/services/moleculeService.ts:112-124 | as written, after a rejected initialization and a cleanup, every later initViewer returns the same rejection |
| `MoleculeServiceScenarios.CorrectedCleanupAllowsReinit` | src/services/moleculeService.ts:112-124 | with the corrected cleanup, a ready environment initializes successfully after a failed initialization |
| `MoleculeServiceScenarios.DedupByRawName` | src/services/moleculeService.ts:169-205 | a second "Ceramide" request joins the first; "ceramide" gets its own entry; settling "Ceramide" leaves "ceramide" pending |
| `JsText.ToLower` | src/components/Dropdown.tsx:53 | ASCII lowering keeps the length and leaves no upper-case ASCII letter |
| `JsText.ToLowerIdempotent` | src/components/Dropdown.tsx:53 | lowering twice is lowering once |
| `JsText.Includes` | src/components/Dropdown.tsx:53 | `includes` holds for the empty term, and only for a term no longer than the text |
| `JsText.IncludesIffOccurs` | src/components/Dropdown.tsx:53 | `includes` holds exactly when the term occurs at some position |
| `Carousel.Next` | src/components/Carousel.tsx:10-12 | `handleNext` gives NaN exactly for an empty list or a NaN index, and keeps a valid index valid |
| `Carousel.Prev` | src/components/Carousel.tsx:14-16 | `handlePrev` gives NaN exactly for an empty list or a NaN index, and keeps a valid index valid |
| `Carousel.NextStep` | src/components/Carousel.tsx:10-12 | from a valid index, next moves one slot right and wraps from the last slot to 0, staying in range |
| `Carousel.PrevStep` | src/components/Carousel.tsx:14-16 | from a valid index, previous moves one slot left and wraps from 0 to the last slot, staying in range |
| `Carousel.NextPrevInverse` | src/components/Carousel.tsx:11-15 | next and previous undo each other on every valid index |
| `Carousel.NextTimesAdd` | src/components/Carousel.tsx:11 | a + b presses of next are a presses followed by b presses |
| `Carousel.NextTimesWithoutWrap` | src/components/Carousel.tsx:11 | before the end of the list, k presses of next move k slots right |
| `Carousel.NextFullCycle` | src/components/Carousel.tsx:11 | pressing next n times returns to the starting index |
| `Carousel.JsRemainder` | src/components/Carousel.tsx:11 | for a non-negative dividend, JavaScript's remainder is Dafny's and lies in [0, n) |
| `Carousel.Displayed` | src/components/Carousel.tsx:21 | a slide is shown exactly when the index is in range |
| `Carousel.RunKeepsInBounds` | src/components/Carousel.tsx:8-16 | any sequence of presses from a valid index keeps it valid |
| `Carousel.SlideAlwaysShowsAMolecule` | src/components/Carousel.tsx:8-21 | starting at 0 with a non-empty list, the slide always shows one of the molecules |
| `Carousel.EmptyCarouselShowsNothing` | src/components/Carousel.tsx:8-21 | with no molecules, the index becomes NaN at the first press and the slide stays empty |
| `Dropdown.ValidDataAsWritten` | src/components/Dropdown.tsx:26-28 | `validData` as written keeps only objects with a `name` property, and never more entries than the array had |
| `Dropdown.ValidData` | src/components/Dropdown.tsx:4-6 | the corrected `validData` keeps only objects whose name is a string, and never more entries than the array had |
| `Dropdown.NonArrayYieldsNothing` | src/components/Dropdown.tsx:26-28 | a load result that is not an array yields no ingredients |
| `Dropdown.ValidDataAsWrittenKeepsNamedObjects` | src/components/Dropdown.tsx:26-28 | as written, validData keeps exactly the non-null objects with a `name` property, in their original order |
| `Dropdown.ValidDataKeepsIngredients` | src/components/Dropdown.tsx:4-6 | the corrected validData keeps exactly the objects whose name is a string, in order |
| `Dropdown.MatchesSearch` | src/components/Dropdown.tsx:53 | the callback throws exactly for a name that is neither nullish nor a string; otherwise it says whether the lowered name contains the lowered term |
| `Dropdown.FilterBySearch` | src/components/Dropdown.tsx:52-54 | the filter throws exactly when some entry has such a name; otherwise it is the filter by the match predicate |
| `Dropdown.GetFilteredIngredients` | src/components/Dropdown.tsx:50-55 | the search throws exactly when some entry's name is neither nullish nor a string; otherwise it returns entries of the list, no more than it had |
| `Dropdown.SearchKeepsMatchesInOrder` | src/components/Dropdown.tsx:50-55 | the result is an order-preserving subsequence holding exactly the entries whose lowered name contains the lowered term |
| `Dropdown.SearchIgnoresCase` | src/components/Dropdown.tsx:53 | search terms differing only in case give the same result |
| `Dropdown.EmptyTermKeepsNamed` | src/components/Dropdown.tsx:53 | an empty term returns every entry whose name is a string |
| `Dropdown.NumericNameBreaksSearch` | src/components/Dropdown.tsx:26-28 | as written, `{name: 5}` passes validData and then the search throws for every term |
| `Dropdown.SearchSafeOnValidData` | src/components/Dropdown.tsx:50-55 | on the corrected validData the search never throws, and an empty term returns the whole list |
| `Dropdown.LoadIngredients` | src/components/Dropdown.tsx:18-43 | loading clears the error; when mounted, success stores the entries `validData` keeps as written, and failure empties the list and sets 'Failed to load ingredients'; loading ends either way |
| `Dropdown.LoadKeepsNumericName` | src/components/Dropdown.tsx:18-55 | as written, loading `[{name: 5}]` stores that entry, and every search over the stored list then throws |
| `Dropdown.LoadIngredientsCorrected` | src/components/Dropdown.tsx:18-43 | the corrected load: as `loadIngredients`, but a successful load stores only the entries whose name is a string |
| `Dropdown.SearchSafeAfterLoad` | src/components/Dropdown.tsx:18-55 | after the corrected load, whatever it delivers, searching the stored list does not throw |

## Left out

- Network I/O (`fetch`, `AbortSignal.timeout(5000)`, `response.json()`, `response.text()`) is left out. Each response is an oracle value, and a transport failure or the 5 s abort is `Unreachable`.
- `src/services/ingredientService.ts` (`fetchIngredients` over axios) is not part of this model. The dropdown's load takes the settled result (`Loaded(data)` or `LoadFailed`) as input.
- Dropdown.LoadIngredients: the model lets the load fail, but the shipped `fetchIngredients` catches every request error and returns `[]`. A failed request therefore reaches the dropdown as `Loaded(JsArray([]))`: an empty list and no error. The `LoadFailed` branch and its 'Failed to load ingredients' message are reachable only if `fetchIngredients` itself throws, which it does not.
- Timing is left out: the 1 s `RETRY_DELAY` sleep, and `setInterval` and `setTimeout` as clocks. The poll is a loop over visibility observations at ticks 100, 200, … ms. A tick falling exactly at 5000 ms is counted as losing to the timeout, so at most 49 observations count.
- Promise semantics and interleaving are left out; operations run one after another. A request that joins a lookup already in flight is settled by the `joined` input. A `cleanup` during an `await` is not modelled.
- The 3Dmol engine and the DOM are left out. Viewer calls are recorded in `trace`, and the throwing call is an input. The fallback image's pre-load is `imageLoads`.
- `displayFallbackImage` and `display2DStructure` only edit the DOM and are not modelled. `display2DStructure` has no caller.
- `console.warn` and `console.error` are left out.
- The `'useFallback' in result` branch and the `if (!result)` check of `visualizeMolecule` are left out. `fetchFromPubChem` only ever settles with a `{cid}` object, so neither fires.
- `getFilteredIngredients`'s `Array.isArray(ingredients)` guard is left out. The ingredients state is always a sequence here, so the guard cannot fire.
- JsText.ToLower: models `toLowerCase` for the ASCII letters only, because Unicode case mapping is out of scope. JavaScript's lowering can change the length of a string (for example "İ" lowers to two code units). The length-preserving contract therefore holds for this ASCII model only.
- PubChem.LookupAttempt: for a name that lowers to "constructor" or "__proto__", this attempt uses the table-only alias lookup. The attempt as written is `PubChem.LookupAttemptAsWritten` (see Findings).
- PubChem.Resolve: for the same two names, it retries the table-only attempt, not the one as written.
- Orchestrator.Visualize: for the same two names, this is the table-only decision. The decision as written is `Orchestrator.VisualizeAsWritten` (see Findings).
- JavaScript numbers are left out. They are integers in `JsValue`, and a CID from the lookup is given as the text that goes into the next URL.
- `!container` is a boolean input (`containerPresent`). The container element itself is not modelled.
- The Carousel and Dropdown rendering and React's state and effect plumbing are left out; the component state is a value passed from one update to the next.
- `src/components/FaceModel.tsx`, `Tooltip.tsx`, `ResetButton.tsx`, `MoleculeViewer.tsx`, `src/App.tsx` and `vite.config.ts` are left out. They are UI and build code with no logic to state.

- MoleculeServiceModel.MoleculeService.VisualizeMolecule: for a name that lowers to "constructor" or "__proto__", this method follows the corrected, table-only decision. The decision as written for those two names is `Orchestrator.VisualizeAsWritten` (see Findings).
- MoleculeServiceModel.MoleculeService.FetchFromPubChem: for the same two names, this method uses the table-only lookup. The lookup as written is `PubChem.LookupAttemptAsWritten` (see Findings).

## Findings

| source | as written | input that shows it | evidently intended | confidence | as-written member | corrected member |
|---|---|---|---|---|---|---|
| src/services/moleculeService.ts:112-124 | `cleanup` resets `initializationPromise` only inside `if (this.viewer)`, so a rejected initialization stays stored, and every later `initViewer` on that service returns the same rejection | `initViewer` on a container that stays hidden for 5 s (rejects with 'Viewer initialization timeout'), then `cleanup()`, then `initViewer` on a visible container | `cleanup` drops the stored promise whether or not a viewer exists, so teardown followed by initialization can succeed | medium, not executed | `MoleculeServiceScenarios.FailedInitSurvivesCleanup` | `MoleculeServiceScenarios.CorrectedCleanupAllowsReinit` |
| src/services/moleculeService.ts:176-177 | the lookup's `MOLECULE_MAPPINGS[name.toLowerCase()]` indexes a plain object, so it also finds the inherited `constructor` and `__proto__`, which are truthy and have no `cid` | name "Constructor": the lookup returns `{cid: undefined}` without querying PubChem, and the structure URL then contains "undefined" | only the table's own four entries count as aliases | medium, not executed | `PubChem.ConstructorResolvesToUndefined` | `MoleculeMappings.LookupAlias` |
| src/services/moleculeService.ts:147-149 | the `catch` block indexes the same object, so for "Constructor" it takes the fallback branch and loads the image source `undefined` instead of rethrowing | name "Constructor" with any failing stage: the call ends in 'Failed to load fallback image' (or an image from the URL "undefined"), never in the stage's own error | only the table's own entries have a fallback image; any other name rethrows the stage's error | medium, not executed | `Orchestrator.ConstructorFallsBackAsWritten` | `Orchestrator.FallbackPolicy` |
| src/components/Dropdown.tsx:26-28 | `validData` keeps any object with a `name` key, whatever the name's type; `getFilteredIngredients` then calls `toLowerCase` on it and throws a TypeError | catalog data `[{name: 5}]` loaded while mounted, then any search term | `validData` keeps only entries whose name is a string, as the `Ingredient` type declares | medium, not executed | `Dropdown.LoadKeepsNumericName` | `Dropdown.SearchSafeAfterLoad` |
