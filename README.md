# Finder-For-FOOOOOD, modelled in Dafny

Finder-For-FOOOOOD recommends restaurants near a location.
- The browser client collects a location, keywords, a radius, a model and a language.
- It asks the server's AI route for six restaurants, then for nine more in the background.
- It pages through the results and lets a signed-in user keep preferences, a blacklist, ratings and a search history in a per-user document.

This project models the core of that system as Dafny modules, one per source file, plus three shared modules.

- `Wrappers`: `Option` and `Result`.
- `Text`: trimming, substring search, split/join, template filling and integer printing as the TypeScript code uses them.
- `Restaurants`: the raw-AI-item normalisation and the price-level table. `aiRoutes.ts` and the legacy `services/geminiService.ts` share this code, so it is defined once here.
- `App` (`client/App.tsx`): the search and pagination state machine.
  - It is a class whose fields are the `AppState` record.
  - The `AbortController` is a number handed out per search, with a set of aborted numbers.
  - The memoised search handlers keep the signed-in user of the first render, beside the auth provider's current user (see Findings).
  - Each asynchronous continuation is an event method that the environment may call in any order once the continuation exists. The continuations are the phase-1 result, the 500 ms finishing timer, the phase-2 result and a stream chunk.
- `AiRoutes` (`server/src/routes/aiRoutes.ts`): `POST /search`, including request defaults, the flow call, item normalisation and the 500 path.
- `Genkit` (`server/src/genkit.ts`): the flow's input-schema defaults and validation, prompt assembly, model fallback and output handling.
- `GeminiService` (`services/geminiService.ts`): the legacy browser-side search, covering the key check, abort checks, JSON guard and error classification.
- `UserRoutes` (`server/src/routes/userRoutes.ts`): the user-document routes over a store modelled as a map from user id to a document of fields.
- `Auth` (`server/src/middleware/authMiddleware.ts`): bearer-header parsing and the verify decision. The header form is section 2.1 of RFC 6750, matched case-sensitively.
- `Settings` (`client/components/SettingsView.tsx`): preference edits, the blacklist, ratings and the rating sort and colour band.
- `ResultView` (`client/components/ResultView.tsx`): the visit prompt, the carousel, the map markers and the button conditions.
- `InputView` (`client/components/InputView.tsx`): the history-bubble slots, the intro icon cycle and search-parameter assembly.
- `ActionLogger` (`client/components/ActionLogger.tsx`): the nearest interactive element of a click, the element-label cascade and value masking or truncation.
- `RequestLogger` (`server/src/middleware/loggerMiddleware.ts`): body and query logging and status classification.
- `Deploy` (`server/scripts/deploy-with-env.ts`): `.env` filtering and the `.gitignore` patch and restore. The file system is a map from path to contents.

Values the code draws from outside become parameters:
- clocks (`Date.now`, server timestamps);
- `Math.random` and generated ids;
- the generative model's answer;
- Firebase token verification;
- the outcome of HTTP calls;
- build and deploy results.

## Model

| member | source | states |
|---|---|---|
| Text.TrimEmptyIffAllSpace | client/components/InputView.tsx:462 | a string trims to "" exactly when every character is white space |
| Text.JoinSplit | server/scripts/deploy-with-env.ts:50-66 | joining the pieces of a split with the same separator gives back the original text |
| Text.SplitPiecesFree | server/src/middleware/authMiddleware.ts:15 | no piece of a split contains the separator |
| App.NoResultsMessage | client/App.tsx:103 | the empty-result message is the English one for "en" and the Chinese one for every other language |
| App.Unshown | client/App.tsx:199 | the unshown restaurants are exactly those of the list whose id is not marked shown, and there are no more of them than in the list |
| App.UnshownAfterShowing | client/App.tsx:199-211 | after the unshown ids are marked shown, nothing is unshown, so a second Next finds nothing |
| App.NextKeepsPagesConsistent | client/App.tsx:195-219 | appending the unshown restaurants keeps every displayed restaurant in the full list with its id marked shown |
| App.Exhausted | client/App.tsx:268-270 | exhausted iff not fetching in the background, the list is non-empty and no restaurant is unshown |
| App.Phase1Args | client/App.tsx:74-97 | phase 1 asks for 6 restaurants with the caller's location, keywords, radius, model, language and exclusions |
| App.Phase2Args | client/App.tsx:144-146 | phase 2 asks for 9, excluding the phase-1 names in order followed by the caller's exclusions |
| App.AddIds | client/App.tsx:111 | adding each restaurant's id yields the old ids plus the ids of the list |
| App.AppModel.constructor | client/App.tsx:15-28 | the initial state: input view, not loading, the default parameters, empty lists, no controller; the user seen by the memoised handlers and the current user are both the one known at mount |
| App.AppModel.StartSearch | client/App.tsx:49-97 | a new controller becomes current; loading starts, the error, the lists and the stream output are cleared; preferences are saved only when the user captured at mount was signed in, whoever is signed in now; the phase-1 request is issued |
| App.AppModel.StartSearchLive | client/App.tsx:49-97 | the same search start reading the user signed in when it starts: preferences are saved exactly when that user is signed in |
| App.AppModel.AuthChanged | client/contexts/AuthContext.tsx:34-35 | the auth provider's current user becomes the new one, and the user the memoised handlers captured stays as it was |
| App.AppModel.NewController | client/App.tsx:51-52 | a fresh controller number, never used or aborted, becomes current and its phase-1 call is pending |
| App.AppModel.ResetForSearch | client/App.tsx:54-66 | loading on, no loading error, new parameters, all three lists empty, stream output cleared |
| App.AppModel.SavePreferences | client/App.tsx:68-70 | the parameters are posted exactly when the user the caller passes is signed in (the mount-time user for `StartSearch`) |
| App.AppModel.StreamChunk | client/App.tsx:76-84 | a chunk is appended to the stream output unless the search was aborted |
| App.AppModel.Phase1Result | client/App.tsx:99-118 | an aborted search changes nothing; an empty or failed phase 1 leaves loading on with the error message; a non-empty one starts finishing and schedules the timer and phase 2 |
| App.AppModel.SettlePhaseOne | client/App.tsx:102-118 | the two non-aborted outcomes of phase 1, error and finishing |
| App.AppModel.ShowLoadingError | client/App.tsx:167-173 | loading stays on with the message as the loading error |
| App.AppModel.BeginFinishing | client/App.tsx:113-118 | finishing starts with the results pending, and the commit timer and phase 2 become pending |
| App.AppModel.FinishTimer | client/App.tsx:120-140 | an aborted search changes nothing; otherwise the phase-1 results are committed and history is posted exactly when the user captured at mount was signed in |
| App.AppModel.FinishTimerLive | client/App.tsx:120-140 | the same timer reading the current user: history is posted exactly when a user is signed in when it fires |
| App.AppModel.CommitPhaseOne | client/App.tsx:123-139 | the committed lists are the phase-1 results, and a history post carrying their names is made exactly when the user passed in is signed in |
| App.AppModel.Commit | client/App.tsx:123-134 | result view, loading over, the full and displayed lists both the results, their ids shown, background fetching on |
| App.AppModel.Phase2Result | client/App.tsx:146-159 | the results are appended and background fetching stops only if this search is current and not aborted; otherwise nothing changes |
| App.AppModel.Cancel | client/App.tsx:177-189 | the current controller is aborted and cleared, loading stops and the error is cleared |
| App.AppModel.AbortCurrent | client/App.tsx:179-182 | the current controller, if any, joins the aborted set and no controller is current |
| App.AppModel.CloseLoading | client/App.tsx:191-193 | loading stops and the loading error is cleared |
| App.AppModel.Next | client/App.tsx:195-219 | the displayed list gains exactly the unshown restaurants, in order, and their ids are marked shown; afterwards nothing is unshown |
| App.AppModel.Back | client/App.tsx:221-236 | the current controller is aborted, then input view with both lists empty and no background fetching |
| App.AppModel.ClearLists | client/App.tsx:231-232 | both restaurant lists become empty |
| App.AppModel.GoToSettings | client/App.tsx:238-245 | the settings view, remembering the previous view only when it was input or result |
| App.AppModel.BackFromSettings | client/App.tsx:247-249 | the remembered view, or input when none |
| App.AppModel.LogoutFromSettings | client/App.tsx:251-266 | input view, lists and shown ids cleared, no remembered view, logout transition on |
| App.SettingsRoundTrip | client/App.tsx:238-249 | going to settings and back returns to the input or result view that was left |
| App.SearchStarted | client/App.tsx:49-97 | a fresh app after one search start has a current, unaborted controller with phase 1 pending and nothing else pending |
| App.FirstResultsArrived | client/App.tsx:99-118 | after a non-empty phase 1 the timer and phase 2 are pending and the lists are still empty |
| App.FirstResultsShown | client/App.tsx:120-134 | after the timer fires, both lists are the phase-1 results with their ids shown and background fetching on |
| App.PhaseTwoBeforeCommit | client/App.tsx:123-156 | if phase 2 lands before the timer, the commit overwrites the list with the phase-1 results and background fetching stays on with no phase-2 call left to clear it, so the list is not exhausted |
| App.CommitBeforePhaseTwo | client/App.tsx:120-156 | in the intended order the list ends as phase 1 plus phase 2, and one Next leaves it exhausted |
| App.FlippedPage | client/contexts/AuthContext.tsx:34-69 | a page mounted with one auth state whose user then flips: the captured user is the mount-time one, the current user its opposite, nothing posted |
| App.StartedAfterAuthFlip | client/App.tsx:49-97 | after the flip, a search start (as written or reading the live user) has a current controller with phase 1 pending, and saves preferences exactly when the user it reads is signed in |
| App.ArrivedAfterAuthFlip | client/App.tsx:99-118 | after that start, a non-empty phase 1 leaves the timer pending on the phase-1 results, with no history posted yet |
| App.RunAfterAuthFlip | client/App.tsx:49-140 | after the timer fires, preferences and history are posted exactly when the user the handlers read is signed in |
| App.UserFrozenAtMount | client/App.tsx:49-175 | as written: a user who signs in after the page loaded gets nothing saved, and for one who signed out preferences and history are still posted, without a token, so the server refuses them with 401 |
| App.UserReadLive | client/App.tsx:49-175 | reading the current user instead: the user who signed in gets preferences and history posted, and the one who signed out gets nothing |
| Restaurants.PriceTable | server/src/routes/aiRoutes.ts:15-22 | every language's table has exactly the five symbols as keys |
| Restaurants.FormatPriceLevel | server/src/routes/aiRoutes.ts:15-24 | a known symbol gives the table's entry; anything else gives the language's "$" entry |
| Restaurants.PriceLevelKeepsSymbol | server/src/routes/aiRoutes.ts:16-23 | the formatted level begins with the symbol itself for a known symbol other than "-" |
| Restaurants.PriceLevelLanguageFallback | server/src/routes/aiRoutes.ts:17-20 | any language other than en or ja formats as zh-TW |
| Restaurants.PriceLevelDash | server/src/routes/aiRoutes.ts:21 | "-" formats as "-" in every language |
| Restaurants.Normalise | server/src/routes/aiRoutes.ts:67-80 | every field's default: name "Unknown", address the location, rating 4.0, the tags when at most three and else their first three, no tags when absent, open unless false, the given coordinates unless missing or zero and then 25.0330 / 121.5654, distance "nearby" |
| Restaurants.NormaliseAll | server/src/routes/aiRoutes.ts:67 | same length and order as the raw list, each item normalised with its own id |
| Restaurants.NormaliseRoundTrip | server/src/routes/aiRoutes.ts:67-80 | normalising the raw form of a well-formed restaurant gives that restaurant back |
| AiRoutes.FlowInputOf | server/src/routes/aiRoutes.ts:43-65 | the flow gets radius "1km", limit 6, language zh-TW and no exclusions by default, and never the client's model |
| AiRoutes.ErrorText | server/src/routes/aiRoutes.ts:86 | the error text is the thrown message, never empty |
| AiRoutes.Search | server/src/routes/aiRoutes.ts:41-88 | a flow failure is a 500 with its message; a success is the normalised list |
| AiRoutes.SearchErrorsAre500 | server/src/routes/aiRoutes.ts:84-87 | every error answer has status 500 |
| AiRoutes.SearchIgnoresClientModel | server/src/routes/aiRoutes.ts:48-65 | the answer does not depend on the model the client sent |
| AiRoutes.SearchRejectsInvalidInput | server/src/routes/aiRoutes.ts:58-65 | a missing location or an unknown language ends in 500 |
| AiRoutes.SearchShape | server/src/routes/aiRoutes.ts:67-80 | for valid input the answer is the normalised flow output |
| AiRoutes.SearchRequestDefaults | server/src/routes/aiRoutes.ts:43-51 | an otherwise empty request reaches the flow with the route's defaults |
| Genkit.ParseInput | server/src/genkit.ts:23-32 | input fails validation iff the location is missing or the language is unknown; otherwise the schema defaults fill the gaps |
| Genkit.FinalKeywords | server/src/genkit.ts:66 | the given keywords when their trim is non-empty, else the language's default |
| Genkit.FinalKeywordsNotBlank | server/src/genkit.ts:66 | the keywords in the prompt are never blank |
| Genkit.ExcludeInstruction | server/src/genkit.ts:68-71 | empty iff there is nothing to exclude; otherwise the fixed sentence with the names joined by ", " |
| Genkit.ExcludeInstructionNamesAll | server/src/genkit.ts:68-71 | every excluded name appears in the sentence |
| Genkit.RadiusConstraint | server/src/genkit.ts:73-75 | "unlimited" gives the wide-search sentence, anything else the strictly-within sentence with the radius |
| Genkit.TargetLanguage | server/src/genkit.ts:77-82 | "zh-TW", "en" and "ja" give "Traditional Chinese (繁體中文)", "English" and "Japanese (日本語)"; an unknown language falls back to the Traditional Chinese label, and no label is empty |
| Genkit.ContextClause | server/src/genkit.ts:87 | the preferences clause is empty iff no context is given |
| Genkit.PromptMentions | server/src/genkit.ts:84-94 | the prompt (`PromptText`) contains the limit, location, keywords, exclusion sentence, context clause, language label and radius sentence |
| Genkit.PromptExcludesAll | server/src/genkit.ts:70-86 | every excluded name appears in the prompt |
| Genkit.PromptWithoutContext | server/src/genkit.ts:87 | an empty context gives the same prompt as no context |
| Genkit.ModelName | server/src/genkit.ts:100 | the override when non-empty, else the default model |
| Genkit.RequestFor | server/src/genkit.ts:97-104 | the call carries the built prompt and temperature 0.2, and the requested model when non-empty, else the default one |
| Genkit.FlowOutput | server/src/genkit.ts:34-111 | a null output is [], one not matching `RestaurantSchema` (`Conforms`: every field present) is a schema failure, and a success always conforms |
| Genkit.SearchFlow | server/src/genkit.ts:50-112 | invalid input fails before the model is called; valid input returns the checked model output |
| GeminiService.ErrorToString | services/geminiService.ts:144 | name and message joined by ": ", either alone when the other is empty |
| GeminiService.LegacyTargetLanguage | services/geminiService.ts:34-40 | the label for a known language, "undefined" otherwise |
| GeminiService.LegacyPromptMentions | services/geminiService.ts:42-51 | the legacy prompt (`LegacyPrompt`) contains the limit, the location, the final keywords (the language default for blank ones), the exclusion sentence and every excluded name, the language label and the radius sentence |
| GeminiService.ClassifyError | services/geminiService.ts:143-152 | 503 or Overloaded wins over 429, which wins over the key and generic messages |
| GeminiService.ClassifyErrorGenericIff | services/geminiService.ts:143-152 | the generic message is chosen iff no known marker occurs |
| GeminiService.ClassifyOverloadFirst | services/geminiService.ts:146-147 | any text containing "503" classifies as overloaded |
| GeminiService.ErrorMessage | services/geminiService.ts:143-152 | the message chosen step by step is the classification |
| GeminiService.FetchRestaurants | services/geminiService.ts:7-160 | a missing key and an abort are rejected first; a bad or non-array reply gives []; an array holding null is rejected with the generic connection message; otherwise items are normalised in order; model errors are classified |
| GeminiService.ReadAnswer | services/geminiService.ts:100-133 | unparsable or non-array text gives []; an array holding null throws the null-read TypeError; otherwise every item is normalised in order |
| GeminiService.Catch | services/geminiService.ts:136-158 | an abort (`IsAbort`: name AbortError or message Aborted) is rethrown unchanged; any other error becomes an Error with the classified message |
| GeminiService.NullReadIsGeneric | services/geminiService.ts:119-152 | the TypeError of a null element carries no marker, so it classifies as the generic connection message |
| GeminiService.Objects | services/geminiService.ts:118 | the elements of an array without null, in order and of the same length |
| UserRoutes.MergeKeepsUnnamedFields | server/src/routes/userRoutes.ts:31 | a merge keeps every field the write does not name, and a non-map value replaces what was stored |
| UserRoutes.ArrayUnionProperties | server/src/routes/userRoutes.ts:78-83 | the stored list stays a prefix, every added value is present, nothing else appears, and no duplicate is introduced |
| UserRoutes.ArrayUnionPresent | server/src/routes/userRoutes.ts:78-83 | adding values already present changes nothing |
| UserRoutes.KeywordList | server/src/routes/userRoutes.ts:74-80 | a truthy single keyword becomes a one-element list, a non-empty array is used as-is, and anything else updates no keywords |
| UserRoutes.NameList | server/src/routes/userRoutes.ts:82-84 | restaurant names are used only when they are a non-empty array |
| UserRoutes.HistoryUpdate | server/src/routes/userRoutes.ts:72-84 | the update names searchKeywords and recommendedHistory exactly when each list is usable |
| UserRoutes.ApplyUnions | server/src/routes/userRoutes.ts:87 | each named field becomes the union of its stored list and the additions; other fields are kept |
| UserRoutes.SyncData | server/src/routes/userRoutes.ts:47-53 | exactly the five profile fields, with both timestamps the write time |
| UserRoutes.HistoryView | server/src/routes/userRoutes.ts:106-114 | both lists, each the stored one when truthy and [] otherwise, and [] for a missing document |
| UserRoutes.UserStore.constructor | server/src/routes/userRoutes.ts:11 | the store holds the given documents |
| UserRoutes.UserStore.GetPreferences | server/src/routes/userRoutes.ts:13-18 | the whole document, or {} for a first login |
| UserRoutes.UserStore.SavePreferences | server/src/routes/userRoutes.ts:26-33 | the body is merged into the user's document, created if missing |
| UserRoutes.UserStore.Sync | server/src/routes/userRoutes.ts:42-62 | a body missing a profile field is a 500 that writes nothing; otherwise the profile is merged and the uid returned |
| UserRoutes.UserStore.AppendHistory | server/src/routes/userRoutes.ts:67-96 | an empty update writes nothing; an update of a missing document is a 500; otherwise the unions are applied |
| UserRoutes.UserStore.GetHistory | server/src/routes/userRoutes.ts:101-116 | the history view of the stored document |
| UserRoutes.SyncKeepsOtherFields | server/src/routes/userRoutes.ts:47-56 | a sync leaves every non-profile field as stored |
| UserRoutes.HistoryAppendKeepsHistory | server/src/routes/userRoutes.ts:82-87 | a post of restaurant names keeps the stored names as a prefix, adds all posted names without duplicates, and leaves other fields unchanged |
| Auth.TokenIsTextAfterPrefix | server/src/middleware/authMiddleware.ts:15 | the token is the text after "Bearer " up to the next occurrence of "Bearer " |
| Auth.TokenHasNoPrefix | server/src/middleware/authMiddleware.ts:15 | the extracted token never contains "Bearer " |
| Auth.TokenRoundTrip | server/src/middleware/authMiddleware.ts:11-15 | "Bearer " followed by a token is accepted and gives that token back |
| Auth.LowerCaseSchemeRefused | server/src/middleware/authMiddleware.ts:11 | the lower-case scheme "bearer " is refused |
| Auth.Request.constructor | server/src/middleware/authMiddleware.ts:8 | a request without a user on which next has not been called |
| Auth.AuthenticateUser | server/src/middleware/authMiddleware.ts:8-25 | no bearer header is a 401; a token that fails verification is a 401; a verified token sets the user and calls next once |
| Settings.ApplyOnlyNamedField | client/components/SettingsView.tsx:66-69 | an edit (`Apply`) changes only the field it names, and repeating it changes nothing |
| Settings.ApplyLastWins | client/components/SettingsView.tsx:66-69 | of two edits of one field, the later one wins |
| Settings.ApplyCommutes | client/components/SettingsView.tsx:66-69 | edits of different fields can be applied in either order |
| Settings.Unwrap | client/components/SettingsView.tsx:37-45 | preferences are found iff the document has a truthy "preferences" field |
| Settings.UnwrapUndoesNesting | client/components/SettingsView.tsx:38-44 | for any stored document and any other fields beside the inner preferences, one and two levels of "preferences" nesting unwrap to the same preferences |
| Settings.AddedBlacklist | client/components/SettingsView.tsx:82-89 | the trimmed entry is appended iff it is non-empty and not already listed |
| Settings.AddKeepsTidy | client/components/SettingsView.tsx:82-89 | adding keeps the blacklist free of blanks, untrimmed entries and duplicates |
| Settings.Without | client/components/SettingsView.tsx:91-94 | removal keeps exactly the entries different from the item |
| Settings.WithoutConcat | client/components/SettingsView.tsx:93 | removal works piece by piece over a concatenation |
| Settings.WithoutAbsent | client/components/SettingsView.tsx:93 | removing an absent item changes nothing |
| Settings.RemoveUndoesAdd | client/components/SettingsView.tsx:82-94 | removing an entry just added gives the blacklist back |
| Settings.PendingWithout | client/components/SettingsView.tsx:107-108 | the pending reviews keep exactly those for other restaurants |
| Settings.PendingWithoutConcat | client/components/SettingsView.tsx:108 | pending-review removal works piece by piece over a concatenation |
| Settings.Rated | client/components/SettingsView.tsx:97-113 | the rating is stored under its id, the other ratings are kept, the restaurant's pending reviews are dropped, nothing else changes |
| Settings.InsertByTime | client/components/SettingsView.tsx:289-290 | inserting into a newest-first list keeps it newest-first and adds exactly the one rating |
| Settings.SortNewestFirst | client/components/SettingsView.tsx:289-290 | the sorted ratings are newest first and a permutation of the input |
| Settings.BadgeFor | client/components/SettingsView.tsx:295 | green iff at least 4, red iff at most 2, grey strictly between |
| Settings.SettingsScreen.constructor | client/components/SettingsView.tsx:27-33 | no preferences, an empty blacklist input, no rating dialog |
| Settings.SettingsScreen.HandleSave | client/components/SettingsView.tsx:54-64 | the new preferences are kept and saved |
| Settings.SettingsScreen.UpdateField | client/components/SettingsView.tsx:66-69 | the edited preferences are kept and saved |
| Settings.SettingsScreen.HandleAddBlacklist | client/components/SettingsView.tsx:82-89 | a blank input changes nothing; otherwise the input is cleared and the entry is added and saved when new |
| Settings.SettingsScreen.RemoveBlacklist | client/components/SettingsView.tsx:91-94 | the blacklist without the item is kept and saved |
| Settings.SettingsScreen.SubmitRating | client/components/SettingsView.tsx:97-113 | without a rating target nothing changes; otherwise the rated preferences are kept, saved and the dialog closes |
| ResultView.HandleVisit | client/components/ResultView.tsx:39-63 | signed out asks to log in; a failed read shows nothing; a restaurant already pending posts nothing; otherwise it is appended to the pending reviews and posted, and the added notice shows only when the save succeeds |
| ResultView.VisitKeepsIdsUnique | client/components/ResultView.tsx:48-57 | appending a visit keeps the pending ids unique |
| ResultView.Carousel.constructor | client/components/ResultView.tsx:66 | the carousel starts at index 0 |
| ResultView.Carousel.Next | client/components/ResultView.tsx:80-91 | advance while not on the last card, else ask for more and stay |
| ResultView.Carousel.Prev | client/components/ResultView.tsx:93-97 | step back, never below 0 |
| ResultView.Carousel.JumpTo | client/components/ResultView.tsx:159 | the index becomes the clicked card |
| ResultView.SyncSelected | client/components/ResultView.tsx:73-77 | in random mode with a valid index the selection is that restaurant, otherwise it is kept |
| ResultView.PinsSound | client/components/ResultView.tsx:136-145 | every pin of `RestaurantPins` has a 1-based number of a restaurant with coordinates, its position and id, in increasing order, highlighted iff selected |
| ResultView.PinsComplete | client/components/ResultView.tsx:136-145 | every restaurant with coordinates gets a pin |
| ResultView.BuildMarkers | client/components/ResultView.tsx:118-145 | the user pin exists iff both coordinates are non-zero, and the pins are those of the restaurants |
| ResultView.NextButtonsEnabled | client/components/ResultView.tsx:409-497 | without background fetching neither next button (`CarouselNextDisabled`, `FooterNextDisabled`) is disabled; while fetching, the carousel blocks on its last card and the footer for 6 to 14 results |
| ResultView.NoMoreIsExhausted | client/components/ResultView.tsx:490 | the no-more notice (`ShowsNoMore`) shows iff the results are exhausted |
| InputView.InitialSlots | client/components/InputView.tsx:61-69 | six slots, cycling the history, exactly the first so many visible |
| InputView.SideIndices | client/components/InputView.tsx:90-92 | the left side holds the even slots, the right side the odd ones, in increasing order |
| InputView.FadeOut | client/components/InputView.tsx:99-104 | only the target slot changes, and it becomes invisible |
| InputView.Candidates | client/components/InputView.tsx:112-113 | the history items not currently displayed |
| InputView.Swap | client/components/InputView.tsx:107-124 | only the target changes; it becomes visible with a history item, one not displayed whenever such an item exists |
| InputView.Bubbles.constructor | client/components/InputView.tsx:57-72 | no slots, the last side right |
| InputView.Bubbles.Initialise | client/components/InputView.tsx:61-69 | empty history changes nothing; otherwise the initial slots |
| InputView.Bubbles.Tick | client/components/InputView.tsx:79-104 | outside the side phase or with six items or fewer nothing happens; otherwise the side flips and one of its slots fades out |
| InputView.Bubbles.SwapIn | client/components/InputView.tsx:107-125 | the slots become the swap of the target |
| InputView.TwoTicks | client/components/InputView.tsx:79-125 | two ticks in a row, with the swap between them, fade out slots of different parity, and with two slots or more both find one |
| InputView.BubbleScale | client/components/InputView.tsx:211 | full size iff in the side phase and visible, else 0.01 |
| InputView.BubbleOpacity | client/components/InputView.tsx:212 | opaque iff in the side phase and visible, else transparent |
| InputView.BubbleShownIff | client/components/InputView.tsx:207-212 | a bubble is shown iff in the side phase and visible, and shrunk exactly when transparent |
| InputView.NextIcon | client/components/InputView.tsx:296-302 | the icon advances modulo the icon count only in the intro when not animating |
| InputView.IconCycleReturns | client/components/InputView.tsx:299 | n steps from an icon reach the icon n places on, modulo the count |
| InputView.Cycle | client/components/InputView.tsx:296-302 | repeated steps stay within the icons |
| InputView.SearchForm.constructor | client/components/InputView.tsx:272-292 | the form's initial values, with the given language when present and non-empty and zh-TW otherwise |
| InputView.SearchForm.SyncLanguage | client/components/InputView.tsx:305-309 | a present, non-empty language prop becomes the selected language; otherwise the selection stays |
| InputView.SearchForm.CommonParams | client/components/InputView.tsx:446-459 | the hidden coordinates when set, else the typed location; exclusions only when history removal is on |
| InputView.SearchForm.ValidateInput | client/components/InputView.tsx:461-468 | valid iff the location trims to non-empty; invalid shows the error |
| InputView.SearchForm.HandleSearch | client/components/InputView.tsx:470-478 | a list-mode search is sent iff the input is valid |
| InputView.SearchForm.HandleRandomSearch | client/components/InputView.tsx:480-488 | a random-mode search is sent iff the input is valid |
| InputView.SearchForm.HandleHistoryClick | client/components/InputView.tsx:496-506 | the keywords become the clicked name and a list search is sent iff valid |
| InputView.SearchForm.HandleLocationChange | client/components/InputView.tsx:490-494 | the location is replaced, hidden coordinates are cleared and the error hidden |
| ActionLogger.ShortLabel | client/components/ActionLogger.tsx:22-23 | text longer than 30 is cut to 30 characters and "..." |
| ActionLogger.Lower | client/components/ActionLogger.tsx:41 | same length, every A-Z turned into a-z and every other character kept |
| ActionLogger.Closest | client/components/ActionLogger.tsx:36 | the index of the first interactive element on the path (a button, link, input, select, text area or label tag, or role "button"), and none iff there is none |
| ActionLogger.ElementLabel | client/components/ActionLogger.tsx:8-31 | the first non-empty of aria-label, #id, name="…", the text's first line, placeholder, else 'unknown' |
| ActionLogger.TextLabelShape | client/components/ActionLogger.tsx:21-24 | a text label is at most 33 characters and has no line break |
| ActionLogger.ClickEntry | client/components/ActionLogger.tsx:33-47 | a click is logged iff some element on the path from the target outwards is interactive; the entry is the nearest such element's lower-cased tag and label |
| ActionLogger.LoggedValue | client/components/ActionLogger.tsx:58-59 | values over 50 characters are cut to 50 and "..." |
| ActionLogger.ChangeEntry | client/components/ActionLogger.tsx:50-63 | only inputs, selects and text areas are logged, and passwords are masked |
| ActionLogger.PasswordNeverLogged | client/components/ActionLogger.tsx:55-56 | a password field's entry does not depend on its value |
| RequestLogger.TruncatedBody | server/src/middleware/loggerMiddleware.ts:18-19 | bodies over 500 characters are cut to 500 and marked; shorter ones are kept |
| RequestLogger.RequestLines | server/src/middleware/loggerMiddleware.ts:8-25 | separator and request line, then a body line only for a non-empty body and a query line only for a non-empty query |
| RequestLogger.ResponseLine | server/src/middleware/loggerMiddleware.ts:29-37 | an error line iff the status is at least 400 |
| RequestLogger.RequestLogger | server/src/middleware/loggerMiddleware.ts:3-42 | the request lines are logged at once, the response line and separator on finish, and next is called once |
| Deploy.Assignment | server/scripts/deploy-with-env.ts:18 | KEY="value" is three characters longer than key and value |
| Deploy.EnvVars | server/scripts/deploy-with-env.ts:17-24 | the variable string holds every entry's KEY="value", and it is empty iff there are no entries |
| Deploy.FilterLines | server/scripts/deploy-with-env.ts:51-64 | kept lines are exactly the blank, comment or non-forbidden ones |
| Deploy.ForbiddenAssignmentDropped | server/scripts/deploy-with-env.ts:51-64 | a bare `KEY=value` line for PORT or GOOGLE_APPLICATION_CREDENTIALS, with no white space at either end and a value not ending in white space, is not kept (`KeepLine`) |
| Deploy.FilterLinesConcat | server/scripts/deploy-with-env.ts:50-66 | filtering works piece by piece over a concatenation |
| Deploy.FilterLinesAllKept | server/scripts/deploy-with-env.ts:51-64 | lines that are all kept pass unchanged |
| Deploy.FilteredEnvUnchanged | server/scripts/deploy-with-env.ts:50-66 | a file without forbidden keys is left as it was by `FilteredEnv` |
| Deploy.FilteredEnvDropsForbidden | server/scripts/deploy-with-env.ts:53-62 | no surviving line sets a forbidden key |
| Deploy.PatchedGitignore | server/scripts/deploy-with-env.ts:73-82 | the patched .gitignore un-ignores .env |
| Deploy.Prepared | server/scripts/deploy-with-env.ts:44-82 | .env is filtered, .gitignore is patched or created, and every other file is untouched |
| Deploy.Restored | server/scripts/deploy-with-env.ts:95-116 | .env gets its original content back when there was one, .gitignore loses the un-ignore line, other files are untouched |
| Deploy.CleanedGitignore | server/scripts/deploy-with-env.ts:113 | removing the un-ignore lines never adds text |
| Deploy.CleanedGitignoreKeepsOthers | server/scripts/deploy-with-env.ts:113 | a .gitignore without an un-ignore line comes back unchanged |
| Deploy.RestoreUndoesPrepare | server/scripts/deploy-with-env.ts:95-116 | when `.env` and `.gitignore` both exist and are non-empty, restoring after preparing gives back the original files (an empty or missing `.gitignore` is not restored, see `CreatedGitignoreLeftBehind`) |
| Deploy.CreatedGitignoreLeftBehind | server/scripts/deploy-with-env.ts:105-115 | a .gitignore created by the patch is left behind holding a single newline |
| Deploy.Script.constructor | server/scripts/deploy-with-env.ts:7-13 | the script starts on the given files with no exit code and no commands |
| Deploy.Script.Prepare | server/scripts/deploy-with-env.ts:44-82 | the files become the prepared ones and the original contents are returned |
| Deploy.Script.BuildAndDeploy | server/scripts/deploy-with-env.ts:84-88 | deploy runs only after a successful build, and success needs both |
| Deploy.Script.RunAsWritten | server/scripts/deploy-with-env.ts:10-117 | as written: no .env exits 1, no entries exits 0, success restores, failure exits 1 with the files still prepared |
| Deploy.Script.RunRestoring | server/scripts/deploy-with-env.ts:92-116 | the intended run: the files are restored whether or not the build and deploy succeed |
| Deploy.FailedRunLeavesFilesChanged | server/scripts/deploy-with-env.ts:92-95 | after a failed run the .gitignore keeps the un-ignore line, so the files differ from the originals |

## Left out

- Networking, Firestore, Genkit, Firebase Auth and the generative model are outside the model. Their answers are parameters: an outcome, a reply, or a verify oracle.
- The client's HTTP wrapper `client/services/geminiService.ts` is not part of this model. `App` receives the outcome of each fetch as an event.
- `App.AppModel.StreamChunk`: only a chunk's effect on the stream output is modelled. The chunk's text and the timestamps the service writes are not.
- The App `loadingMessage` and `error` fields are left out because nothing in the core reads them. The loading overlay's animation is left out too.
- `App.AppModel.Phase1Result`: a search superseded by a newer one but not aborted can still apply its phase-1 result and timer, just as in the source. The model allows this and does not forbid it.
- The `getPreferences` call on login in `client/App.tsx:35-46` is left out; it only logs what it loads.
- `InputView.SearchForm`: the loads on login at `client/components/InputView.tsx:353-383` are not modelled. These are the history load that feeds `recommendedHistory` and `removeHistory`, and the preferences load that sets the language, the model and dev mode. The form keeps the values its constructor gave it until the user changes them.
- Logout itself (`logout()` and its failure) is one step: the view change that follows it.
- `isSaving`, alerts, focus, the DOM, CSS classes and console output are left out.
- Coordinates are parsed from text as floats by `parseCoords`. The model takes them as given reals.
- `Deploy`: `.env` parsing by dotenv is left out. The parsed entries are a parameter.
- The string and regex behaviour of JavaScript on UTF-16 code units is modelled on Unicode characters.
- `ActionLogger.Lower`: does not lower-case non-ASCII letters, which `toLowerCase` does. Tag names are ASCII in HTML.
- `Restaurants.Normalise`: on the legacy path (`services/geminiService.ts:118-131`) `item.name || …` keeps any truthy value, such as a number or an object. The model collapses a value of the wrong type into `None`, so it gets the default.
- `Restaurants.FormatPriceLevel`: does not model symbols that name an `Object.prototype` property, such as "constructor". In JavaScript such a key looks up a non-string value; here it is an unknown symbol.
- `AiRoutes.FlowInputOf`: does not model `Number(limit)` coercion of a non-numeric limit; the limit is an integer or absent.
- Generated restaurant ids come from `Date.now` and `Math.random`, so they are a parameter.
- `Settings.SortNewestFirst`: does not state that ties keep their original order. JavaScript's sort is stable; the model only promises newest-first and the same multiset.
- `RequestLogger.RequestLogger`: the defensive copy of the body is left out, because the modelled values are immutable.
- `UserRoutes.MergeKeepsUnnamedFields`: the field-by-field merge of nested maps is stated only for fields the write does not name and for non-map values. The nested case follows `MergeValue`'s definition.
- `Settings.Unwrap`: a document without usable preferences yields `None`, and the caller keeps its preferences. The null-data path of the loader is folded into this.
- `GeminiService.NullRead`: its message is the Chromium wording. Other engines word the `TypeError` differently; none of those wordings contains a classification marker either, but the model fixes one.
- Transactions, retries, concurrency between requests and Firestore failures other than a missing document are left out.

## Findings

| source | as written | input that shows it | evidently intended | confidence | as-written member | corrected member |
|---|---|---|---|---|---|---|
| server/scripts/deploy-with-env.ts:92-95 | `process.exit(1)` in the catch block ends the process before the `finally` block, so a failed build or deploy never restores the files | any run with a non-empty deploy list whose build fails, on a `.gitignore` not containing `!.env` | the restore in `finally` runs on failure as well | not executed | Deploy.Script.RunAsWritten | Deploy.Script.RunRestoring |
| client/App.tsx:49-175 | `handleSearch` is memoised with no dependencies, so its `currentUser` is the one of the first render. The auth provider renders the app only once the first auth state is known | sign in after the page has loaded, then search: no preferences or history are saved; sign out, then search: they are still posted, without a bearer token (client/services/api.ts:10-14), and refused with 401 by `Auth.AuthenticateUser` | preferences and history are saved for the user signed in when the search runs | not executed | App.UserFrozenAtMount | App.UserReadLive |
