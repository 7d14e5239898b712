# Gullie relocation assistant — a Dafny model

Gullie is a chat assistant that helps people relocate. Its conversation runs
in the browser. The user presses buttons on cards. Each button carries an
*intent* (a name such as `set_pet_type`) and a JSON *payload*. A dispatcher
turns the pair into effects on a reactive store:

- messages to a chat thread (one thread per service: immigration, shipping,
  pets, …);
- steps on a timeline;
- fields of the relocation plan;
- callbacks queued on timers;
- calls to the OpenAI Responses endpoint.

The repository holds two front ends:

- **The threaded assistant** (`src/`). It has threads, a relocation plan, the
  full intent table, scripted service workflows and the hotel-booking mock.
- **The single-stream booking demo** (`gullie-booking-ui/src/store.ts`,
  `intent.ts`, `openai.ts`). It has one message list, no threads and no plan.
  Its dispatcher recognises six groups of intents, plus a default reply.

The model is split into modules.

- `Js` — the JavaScript values a payload can hold: `undefined`, `null`,
  booleans, numbers, strings, arrays, objects. Also truthiness, `||`, `??`,
  `String(x)`, `Number(x)`, and the string helpers the dispatcher uses.
- `Environment` — the `Host`: library and browser functions the model does
  not interpret (`JSON.parse`, `stripHtmlTags`, number formatting, the
  wording of every HTML card and prompt). Also `Render`, the template literal.
- `Timeline` — timeline steps, `upsertStep` and `completeStep`. Both stores
  share them.
- `SessionStore` — `src/store.ts`. The class `Store` holds messages, steps,
  plan, threads, the active thread, the clock and the timer queue.
- `ServiceWorkflows` and `CannedWorkflows` — the scripted first messages and
  cards of each service (`serviceWorkflows.ts`, `workflows.ts`).
- `Gateway` — both `openai.ts` files: the request body, the key check, the
  HTTP error and the extraction of the answer text.
- `Payload` — `safeParse`: HTML-entity decoding, single-quote repair, JSON.
- `BookingMock` — `src/api/mock.ts`: budget and date parsing, the hotel
  filter and sort, `chooseHotel` and `payNow`.
- `IntentTables`, `IntentRules`, `Intent` — `src/lib/intent.ts`:
  - the intent-to-service table and the `switch`;
  - the reaction of each branch as a value (`Effect`: texts to post, a plan
    update, callbacks to queue);
  - the class `Dispatcher`, which applies those reactions to the store, runs
    timers and completes gateway calls.
- `BookingStore`, `BookingIntent` — the single-stream demo's store (a class)
  and its dispatcher (a class).

Time is a field of the store. `setTimeout` appends a `Timer` (due time and
callback) to a queue. The event loop is `FireTimer`: it runs the earliest
timer, and among equal due times the first queued. A gateway call is a `Call`
in flight. Its answer arrives through `CompleteCall`. Random and time-based
ids are replaced by a counter: `Issued(prefix, n)` is spelt `prefix_n`.

Every post also runs `updateThreadLastMessage` on the addressed thread: its
preview and time change, and its unread count rises unless it is active.
`TouchedBy(threads, id, texts, …)` is the thread list after a run of posts to
thread `id`. `Store.Followed(messages, threads)` says that every message added
since `messages` is addressed to the active thread and that the thread list
is `TouchedBy` of their texts, starting from `threads`.

## Model

| member | source | states |
|---|---|---|
| Timeline.Merge | src/store.ts:66 | every field the newer step has replaces the older one's; absent fields keep the older value |
| Timeline.Stamped | src/store.ts:68 | a step without a timestamp gets `now`; one with a timestamp keeps it |
| Timeline.IndexOf | src/store.ts:64 | -1 exactly when no step has the id; otherwise the first step with that id |
| Timeline.FindStepIndex | src/store.ts:64 | the `findIndex` loop returns the first index holding the id, or -1 |
| Timeline.UpsertKeyedById | src/store.ts:63-71 | an existing id is merged in place and the length is kept; a new id is appended stamped with now |
| Timeline.UpsertThenFind | src/store.ts:63-71 | after an upsert, looking the id up finds a step with the new status and data |
| Timeline.UpsertKeepsIndex | src/store.ts:63-71 | an upsert moves no step: every id found before is found at the same index after |
| Timeline.UpsertFresh | src/store.ts:67-69 | upserting a step whose id is new appends it, stamped |
| Timeline.UpsertKeepsStamped | src/store.ts:63-71 | if every step has a timestamp before an upsert, every step has one after |
| Timeline.UpsertIdempotent | src/store.ts:63-71 | repeating the same upsert, at any later time, changes nothing |
| Timeline.CompleteOnlyStatus | src/store.ts:73-76 | completing an absent id is a no-op; otherwise only that step's status changes, to completed |
| Timeline.CompleteIdempotent | src/store.ts:73-76 | completing twice equals completing once |
| SessionStore.ServiceConfig | src/store.ts:146-163 | a known service gets its entry; any other service gets the General Planning entry |
| SessionStore.MergePlan | src/store.ts:166-171 | fields of the partial win; other fields come from the old plan, or from the empty plan when there is none; no other field appears |
| SessionStore.MergeTwice | src/store.ts:166-171 | merging `a` then `b` equals merging `a` overridden by `b`; for disjoint partials the order does not matter |
| SessionStore.ThreadIndex | src/store.ts:133 | the first thread with the id, or -1 exactly when none has it |
| SessionStore.ServiceIndex | src/store.ts:105 | the first thread of the service, or -1 exactly when none has it |
| SessionStore.Preview | src/store.ts:137 | text of at most 50 UTF-16 code units is kept whole; longer text becomes its longest prefix of whole characters within 50 units (49 or 50 of them) plus "..." |
| SessionStore.Touched | src/store.ts:132-144 | updating a preview keeps every thread's id and service, in the same order |
| SessionStore.PreviewInPlane | src/store.ts:137 | on text without characters outside the Basic Multilingual Plane, units are characters: the preview is the text, or its first 50 characters plus "..." |
| SessionStore.TouchEffect | src/store.ts:132-144 | only the addressed thread changes: its preview, its time, and its unread count, which goes up by one unless it is the active thread; no thread changes when the id is unknown |
| SessionStore.TouchedBy | src/store.ts:132-144 | posting any number of texts keeps every thread's id and service, in the same order |
| SessionStore.TouchedByEffect | src/store.ts:132-144 | after several posts to one thread, its preview is the last post's and its unread count has gone up once per post unless it is the active thread; no other thread changes, and an unknown id changes nothing |
| SessionStore.TouchedByChain | src/store.ts:132-144 | posting `a` and then `b` to one thread leaves the threads as posting `a + b` does |
| SessionStore.TrackedPosts | src/store.ts:27-31 | for a run of assistant posts to the active thread, the threads follow the run (`Tracked`) exactly when they are `TouchedBy` of its texts |
| SessionStore.TrackedChain | src/store.ts:27-31 | two followed runs of posts make one |
| SessionStore.TrackedEffect | src/store.ts:132-144 | after a followed run, no post leaves the threads alone; otherwise the active thread shows the last post's preview and time, keeps its unread count, and no other thread changes |
| SessionStore.AppendedChain | src/store.ts:27-31 | two runs of posts to the same thread add up to one run with the texts concatenated |
| SessionStore.SameThreadsLookups | src/store.ts:97-113 | lookups by id and by service, and the one-thread-per-service rule, are unaffected by preview updates |
| SessionStore.Store.constructor | src/store.ts:8-25 | the store starts with only the general thread, which is active; no messages, steps, plan or timers |
| SessionStore.Store.Say | src/store.ts:27-53 | appends one message addressed to the given thread or else the active one, and updates that thread's preview |
| SessionStore.Store.GullieSay | src/store.ts:27-42 | appends exactly one assistant message with the text verbatim and returns it; steps, plan and active thread are unchanged |
| SessionStore.Store.UserSay | src/store.ts:47-53 | the same with the user's role |
| SessionStore.Store.GetLastUserRequest | src/store.ts:55-61 | none exactly when no message is the user's; otherwise the text of a user message after which no user message follows |
| SessionStore.Store.UpsertStep | src/store.ts:63-71 | the steps become the upsert of the old steps; nothing else changes |
| SessionStore.Store.CompleteStep | src/store.ts:73-76 | the steps become the old steps with that id completed; nothing else changes |
| SessionStore.Store.CreateStepId | src/store.ts:78-80 | a fresh id that no step carries, spelt with the kind's name and `_` |
| SessionStore.Store.CreateThread | src/store.ts:83-95 | appends one fresh thread with the service's avatar and colour, the given title and no unread messages |
| SessionStore.Store.SwitchToThread | src/store.ts:97-102 | the id becomes active; that thread's unread count is reset if it exists; nothing else changes |
| SessionStore.Store.GetOrCreateServiceThread | src/store.ts:104-113 | returns the service's existing thread unchanged; otherwise creates one titled by the service's config and queues its workflow start; at most one thread per service is kept |
| SessionStore.Store.StartServiceConversation | src/store.ts:115-123 | the workflow start is queued to run after the current event |
| SessionStore.Store.UpdateRelocationPlan | src/store.ts:166-171 | the plan becomes the shallow merge of the old plan and the partial |
| SessionStore.Store.SetTimeout | src/lib/intent.ts:946-948 | queues the callback, due `delay` ms from now |
| SessionStore.Store.TakeTimer | src/lib/intent.ts:946-948 | removes one timer from the queue and advances the clock to its due time, never backwards |
| ServiceWorkflows.Markups | gullie-booking-ui/src/lib/serviceWorkflows.ts:98-140 | a card's markup holds one button per choice, in order |
| ServiceWorkflows.WelcomeOnlyWithoutWorkflow | gullie-booking-ui/src/lib/serviceWorkflows.ts:4-46 | the welcome line is the greeting exactly for the services with no workflow of their own |
| ServiceWorkflows.StartServiceWorkflow | gullie-booking-ui/src/lib/serviceWorkflows.ts:4-46 | posts the service's greeting to the given thread and updates that thread's preview and unread count for it; pets, shipping, immigration and housing also queue their card one second later to that thread; nothing else changes |
| ServiceWorkflows.Say | gullie-booking-ui/src/lib/serviceWorkflows.ts:225-255 | a one-line workflow posts its line to the given thread, updates that thread's preview and unread count for it (`TouchedBy`), and queues nothing |
| ServiceWorkflows.GreetThenCard | gullie-booking-ui/src/lib/serviceWorkflows.ts:48-95 | greeting now, card queued 1000 ms later, both to the given thread |
| ServiceWorkflows.StartPetRelocationWorkflow | gullie-booking-ui/src/lib/serviceWorkflows.ts:48-85 | the pet greeting now, and the pet assessment card one second later, to the given thread |
| ServiceWorkflows.StartShippingWorkflow | gullie-booking-ui/src/lib/serviceWorkflows.ts:87-95 | the shipping greeting now, and the household-size question one second later, to the given thread |
| ServiceWorkflows.StartImmigrationWorkflow | gullie-booking-ui/src/lib/serviceWorkflows.ts:142-183 | the immigration greeting now, and the visa assessment one second later, to the given thread |
| ServiceWorkflows.StartHousingWorkflow | gullie-booking-ui/src/lib/serviceWorkflows.ts:185-222 | the housing greeting now, and the housing card one second later, to the given thread |
| ServiceWorkflows.AskHouseholdSizeQuestion | gullie-booking-ui/src/lib/serviceWorkflows.ts:98-120 | posts the household-size question to the given thread and nothing else |
| ServiceWorkflows.AskShippingTypeQuestion | gullie-booking-ui/src/lib/serviceWorkflows.ts:123-140 | posts the shipping-type question to the given thread; the card names the chosen household size |
| ServiceWorkflows.HouseholdSizeChoicesAdvance | gullie-booking-ui/src/lib/serviceWorkflows.ts:98-120 | five size buttons continue the shipping chain at `size_selected`; the sixth opens the survey |
| ServiceWorkflows.ShippingTypeChoicesAdvance | gullie-booking-ui/src/lib/serviceWorkflows.ts:123-140 | all four type buttons close the shipping chain at `type_selected` |
| ServiceWorkflows.ChoicesAppearInCard | gullie-booking-ui/src/lib/serviceWorkflows.ts:98-140 | every button of both questions appears in the posted markup |
| CannedWorkflows.PostAll | gullie-booking-ui/src/lib/workflows.ts:3-163 | posts the texts in order to the active thread; that thread's preview and time follow each post, as `TouchedBy` of the texts, and no other thread changes |
| CannedWorkflows.HandleMovingQuotes | gullie-booking-ui/src/lib/workflows.ts:3-35 | posts the moving-quotes card to the active thread, whose preview and time follow it (`TouchedBy`) |
| CannedWorkflows.HandleInventoryWorkflow | gullie-booking-ui/src/lib/workflows.ts:37-65 | posts the inventory card to the active thread, whose preview and time follow it (`TouchedBy`) |
| CannedWorkflows.HandleImmigrationWorkflow | gullie-booking-ui/src/lib/workflows.ts:67-102 | posts an empty message, then the immigration card; the active thread's preview and time follow both (`TouchedBy`) |
| CannedWorkflows.HandleAllServicesOverview | gullie-booking-ui/src/lib/workflows.ts:104-163 | posts an empty message, then the services overview; the active thread's preview and time follow both (`TouchedBy`) |
| Gateway.SelectedModel | src/lib/openai.ts:21-23 | the stored model when one is stored and non-empty; otherwise the default; never empty |
| Gateway.ErrorText | src/lib/openai.ts:53-56 | an HTTP failure reads `Error: OpenAI error: ` followed by status and body |
| Gateway.RequestBody | src/lib/openai.ts:42-50 | model and input always; instructions only when non-empty; effort and tools exactly as given |
| Gateway.Request | src/lib/openai.ts:35-50 | fails with a missing-key error exactly when there is no key or it is empty; otherwise the request body |
| Gateway.Response | src/lib/openai.ts:53-80 | a non-OK reply fails with its status and text; an OK reply yields the extracted answer |
| Gateway.ExtractOutput | src/lib/openai.ts:59-80 | the nested extraction loops compute the answer the fold over output items defines |
| Gateway.ReadContent | src/lib/openai.ts:63-66 | the inner loop over one item's content yields the concatenated fragment texts, or the error of the first fragment that cannot be read |
| Gateway.ContentFailurePersists | src/lib/openai.ts:62-70 | once a prefix of a content array throws, the whole array throws the same error |
| Gateway.ItemsFailurePersists | src/lib/openai.ts:59-75 | once a prefix of the output items throws, the whole extraction throws the same error |
| Gateway.ThenAssociative | src/lib/openai.ts:59-75 | joining answer fragments is associative |
| Gateway.ItemsTextConcat | src/lib/openai.ts:59-75 | the text of `a + b` is the text of `a` followed by the text of `b`: output order is kept |
| Gateway.AnswerFallbacks | src/lib/openai.ts:76-80 | a successful answer is never empty; `output_text` is used only when the loops found no text, and `[no text]` only when it is missing too |
| Gateway.NullFragmentFails | src/lib/openai.ts:62-70 | a null content fragment anywhere makes the call throw, whatever `output_text` holds |
| Payload.Repaired | src/lib/intent.ts:130-132 | a braced text with single quotes and no double quote has every single quote turned into a double one; any other text is kept |
| Payload.SafeParse | src/lib/intent.ts:121-137 | nothing for a missing or empty text; otherwise the parse of the decoded and repaired text |
| Payload.UnescapeWithoutAmpersand | src/lib/intent.ts:124-129 | a text without `&` passes the decoding unchanged |
| Payload.SingleQuotedObjectsParseAlike | src/lib/intent.ts:121-137 | an object written with single quotes parses as the same object written with double quotes |
| Payload.QuoteSwapIsRepaired | src/lib/intent.ts:130-132 | swapping the quotes of such an object is undone exactly by the repair |
| Payload.UnescapeInvertsEscape | src/lib/intent.ts:124-129 | decoding inverts the HTML attribute encoding of any text |
| Payload.ReplaceTokens | src/lib/intent.ts:124-129 | one decoding pass over encoded text swaps exactly the tokens that spell its entity |
| Payload.EscapedCharDecodes | src/lib/intent.ts:124-129 | the five passes in their order turn each encoded character back into itself |
| BookingMock.ParseBudget | src/api/mock.ts:6-17 | nothing exactly when neither a `$` amount nor a `budget` amount occurs; an amount found is never negative |
| BookingMock.FractionBelowOne | src/api/mock.ts:11-14 | `Number` of an amount without a point is its whole digits; with a point, it is at least the whole part and below the next integer |
| BookingMock.DollarPreferred | src/api/mock.ts:10-11 | the leftmost `$` amount is taken, wherever a `budget` amount stands |
| BookingMock.BudgetWordFallback | src/api/mock.ts:13-14 | without a `$` amount, the leftmost `budget` amount is taken |
| BookingMock.LeftmostIsFirst | src/api/mock.ts:10 | a match with no match before it is the one `match` returns |
| BookingMock.MonthNumber | src/api/mock.ts:30-31 | the 1-based month of a three-letter name, 0 exactly for any other text |
| BookingMock.UsYear | src/api/mock.ts:25 | a two-digit year is in the 2000s; a missing one is the current year; any other is kept |
| BookingMock.ParseDate | src/api/mock.ts:19-37 | nothing exactly when no ISO, `m/d[/y]` or month-name date occurs |
| BookingMock.IsoDateVerbatim | src/api/mock.ts:20-21 | the first `yyyy-mm-dd` is returned verbatim, whatever else the text holds |
| BookingMock.UsDatePadded | src/api/mock.ts:22-27 | without an ISO date, the first `m/d[/y]` gives `year-MM-DD` with month and day padded to two digits |
| BookingMock.MonthDayPadded | src/api/mock.ts:28-35 | failing both, a month name gives the current year, month 01–12 and a padded day |
| BookingMock.Eligible | src/api/mock.ts:72-73 | a hotel is kept exactly when it is within the radius and within the budget (when one was parsed); no more hotels come out than went in |
| BookingMock.EligibleConcat | src/api/mock.ts:72-73 | the filter distributes over concatenation, so the kept hotels stay in their input order, each as often as it occurs |
| BookingMock.Insert | src/api/mock.ts:80 | insertion adds exactly the one hotel |
| BookingMock.InsertSorted | src/api/mock.ts:80 | insertion keeps the price-then-distance order |
| BookingMock.SortHotels | src/api/mock.ts:80 | a permutation of its input, ordered by price and then by distance |
| BookingMock.SelectHotels | src/api/mock.ts:72-80 | the offered hotels, sorted, are a permutation of those within 400 m and budget, or within 600 m when none is |
| BookingMock.CandidatesQualify | src/api/mock.ts:72-78 | every offered hotel is within budget and 600 m, and within 400 m unless no affordable hotel is |
| BookingMock.QualifyingOffered | src/api/mock.ts:72-78 | every affordable hotel within the radius in use is offered |
| BookingMock.LatestOfKind | src/api/mock.ts:90-91 | the last step of a kind, or none exactly when no step has it |
| BookingMock.FindHotel | src/api/mock.ts:93 | the first hotel with the id, or none exactly when none has it |
| BookingMock.BookingChoice | src/api/mock.ts:89-94 | a booking needs both a map card and a hotel selection, and the id must be among the selection's hotels |
| BookingMock.ChooseHotel | src/api/mock.ts:88-105 | nothing changes when there is nothing to book; otherwise one message and one in-progress booking summary linked to it, naming the map's venue and the hotel, and the active thread's preview follows the message (`TouchedBy`) |
| BookingMock.PaidHotel | src/api/mock.ts:109-110 | the latest booking summary's hotel, or a placeholder priced at the amount |
| BookingMock.PayNow | src/api/mock.ts:107-121 | one confirmation message and one completed confirmation step linked to it, with the reference and the hotel; the active thread's preview follows the message (`TouchedBy`) |
| BookingMock.PaymentTextNamesReference | src/api/mock.ts:111-112 | the confirmation message ends with the reference the step records |
| IntentTables.ServiceFromIntent | src/lib/intent.ts:187-243 | the table's service for a listed intent, and none exactly for an unlisted one |
| IntentRules.Normalize | src/lib/intent.ts:247 | lower-cased and trimmed; never longer than the intent |
| IntentRules.ServiceFromThread | src/lib/intent.ts:105-119 | the thread's service, or general for an unknown thread |
| IntentRules.Instructions | src/lib/intent.ts:12-103 | every instruction starts with the base system instructions |
| IntentRules.GeneralContextForUnknown | src/lib/intent.ts:97-103 | a service without its own context gets the general instructions; one with a context gets the base followed by that context |
| IntentRules.ServiceThreadInstructedForItsService | src/lib/intent.ts:105-119 | a service's thread is instructed for that service |
| IntentRules.HotelQuery | src/lib/intent.ts:1044-1049 | the payload's query when truthy; otherwise a built string |
| IntentRules.HotelQueryNamesFields | src/lib/intent.ts:1044-1049 | the built query starts with `hotels` and holds the near, walk and date clauses, ending with the budget clause |
| IntentRules.DefaultHotelClauses | src/lib/intent.ts:1045-1048 | without payload the query is near Javits Center within a 10 minute walk, with no date or budget |
| IntentRules.Merged | src/lib/intent.ts:139-185 | an absent update keeps the plan; a present one sets its fields and keeps the others |
| IntentRules.Captured | src/lib/intent.ts:139-185 | nothing is captured from a falsy payload; the special requirements list only grows (`set_children` excepted) |
| IntentRules.WorkStatusAppendsChildrenReplace | src/lib/intent.ts:160-183 | the work-status details are appended to the requirements; the children details replace them |
| IntentRules.HouseholdSizeCapturedOnlyIfPositive | src/lib/intent.ts:139-185 | the household size is captured exactly when it is a positive number |
| IntentRules.DateChosen | src/lib/intent.ts:324-352 | a truthy date (the page's picker when the payload says `from-input`) is stored and confirmed; otherwise the reply asks for one |
| IntentRules.HouseholdSizeGiven | src/lib/intent.ts:353-367 | a positive size is stored; otherwise a prompt or the size card is posted |
| IntentRules.VisaChosen | src/lib/intent.ts:375-382 | stores whether a visa is held and its status, defaulting by the yes/no answer |
| IntentRules.PetTypeSet | src/lib/intent.ts:422-572 | records that there are pets; any follow-up goes to the routed thread |
| IntentRules.VisaStatusSet | src/lib/intent.ts:573-705 | stores the status (default `unknown`); any follow-up goes to the routed thread |
| IntentRules.OtherVisaStatusesSilent | src/lib/intent.ts:573-705 | any status but the four listed gets no reply and no follow-up |
| IntentRules.ImmigrationDetailsSet | src/lib/intent.ts:710-723 | stores the details and queues the partner hand-off 1500 ms later |
| IntentRules.AccommodationTypeSet | src/lib/intent.ts:724-768 | stores the accommodation type and names it in the reply |
| IntentRules.StayPreferenceSet | src/lib/intent.ts:769-789 | stores the budget and duration that are given; one reply |
| IntentRules.StayReplyAlwaysClaimsBoth | src/lib/intent.ts:769-789 | the reply always says both budget and timeline are in hand |
| IntentRules.TemporaryHousingAsked | src/lib/intent.ts:859-894 | the question names the destination, and the stay-options call is queued to the routed thread |
| IntentRules.HousingTypeSet | src/lib/intent.ts:836-841 | stores the housing preference and names it in the reply |
| IntentRules.HouseholdGoodsSet | src/lib/intent.ts:794-809 | appends `Household: …` to the requirements and keeps the earlier ones |
| IntentRules.ShippingTypeSet | src/lib/intent.ts:814-835 | appends `Shipping: …` to the requirements and keeps the earlier ones |
| IntentRules.ShippingChain | src/lib/intent.ts:794-835 | `size_selected` queues the shipping-type question and `type_selected` the next steps, each 1500 ms later; other steps queue nothing |
| IntentRules.MoveTypeSet | src/lib/intent.ts:917-937 | a truthy move type (payload, or the intent's last word) is stored; otherwise nothing happens |
| IntentRules.MoveDateSet | src/lib/intent.ts:938-951 | a truthy date is stored and a follow-up queued; otherwise nothing happens |
| IntentRules.CalendarOpened | src/lib/intent.ts:319-323 | the date picker is posted with the payload's date, default `2025-09-01` |
| IntentRules.NaturalIntent | src/lib/intent.ts:1019-1035 | a listed intent gets its phrase; any other has its underscores turned into spaces |
| IntentRules.Fallback | src/lib/intent.ts:952-1040 | the default branch posts exactly one reply, keeps the requirements, and queues only for the routed thread |
| IntentRules.UnknownIntentReply | src/lib/intent.ts:1019-1036 | an unknown intent that names no move type is answered with the help offer naming it |
| IntentRules.NothingNotedInEmptyPayload | src/lib/intent.ts:957-980 | an empty payload and an intent naming no move type note nothing |
| IntentRules.Reaction | src/lib/intent.ts:258-1040 | every branch keeps the earlier requirements and queues callbacks only for the routed thread |
| IntentRules.PersonalReaction | src/lib/intent.ts:324-789 | the same for the branches about dates, household, visas and pets |
| IntentRules.PlanningReaction | src/lib/intent.ts:790-1040 | the same for the planning branches and the default |
| Intent.FailurePosts | src/lib/intent.ts:1069-1071 | a failed call posts at most one text; the continuation's failure posts nothing |
| Intent.MoveFollowUp | src/lib/intent.ts:917-937 | interstate, international and local moves get exactly one follow-up; others none |
| Intent.Scheduled | src/lib/intent.ts:938-951 | each queued callback is due its delay after now, in order |
| Intent.NumberOr0 | src/lib/intent.ts:270-316 | a missing price or amount reads as 0; any other reads as a number or NaN |
| Intent.PayloadSummary | src/lib/intent.ts:276-294 | the summary names the payload's hotel and price, and the venue or `Selected area` |
| Intent.DeferredPosts | src/lib/intent.ts:258-1040 | a callback posts one text (the move-type follow-up at most one); a captured text verbatim |
| Intent.DeferredPurpose | src/lib/intent.ts:859-894 | a queued call's answer goes to the thread the callback captured |
| Intent.Dispatcher.constructor | src/store.ts:19-25 | a fresh store with only the general thread; no cache, calls or opened pages |
| Intent.Dispatcher.StartCall | src/lib/openai.ts:31-50 | without a key the failure is posted at once, and the addressed thread's preview and unread count follow it; otherwise the request joins the calls in flight and the threads are untouched |
| Intent.Dispatcher.Reply | src/store.ts:27-42 | a reply appends one assistant message with the given text, addressed to the given thread or else the active one, and updates that thread's preview and unread count as one `updateThreadLastMessage` does; a reply to the active thread is followed (`Followed`) |
| Intent.Dispatcher.Fail | src/lib/intent.ts:1069-1071 | posts what the failed call leads to, updates the addressed thread's preview and unread count for it, and nothing else |
| Intent.Dispatcher.CompleteCall | src/lib/intent.ts:1060-1071 | the search's first answer starts the card call and touches no thread; the card is cached and posted; the housing card and the continuation go to the captured thread; a failure posts its failure text; in every case the addressed thread's preview and unread count follow exactly what is posted (`TouchedBy`) |
| Intent.Dispatcher.HandleHotelSearch | src/lib/intent.ts:1044-1072 | a cached query posts its card; otherwise the loading card is posted and the search call started; the active thread's preview follows every post (`Followed`) |
| Intent.Dispatcher.Search | src/lib/intent.ts:1059-1071 | the loading card is posted, then the first-stage call (web search tool, search instructions) starts or fails at once; the active thread's preview follows the loading card and any failure text (`Followed`) |
| Intent.Dispatcher.Route | src/lib/intent.ts:245-256 | an intent of a service other than general moves to that service's thread, creating it when needed; the result is the active thread; no thread but that one changes and at most that one is added (`OthersKept`) |
| Intent.Dispatcher.OpenThread | src/store.ts:104-113 | the service's existing thread with nothing changed, or a new thread appended for it with its workflow start queued |
| Intent.Dispatcher.RouteTo | src/lib/intent.ts:250-255 | the service's thread becomes active; a created thread's workflow start is queued to it |
| Intent.RouteFacts | src/lib/intent.ts:251-254 | finding or creating the service's thread and switching to it makes that thread active, clears its unread count, keeps every other thread as it was, and queues only the new thread's own workflow start |
| Intent.RoutedKept | src/store.ts:97-102 | switching to the service's thread clears its unread count and leaves every other thread as it was; at most that thread is new |
| Intent.Switched | src/store.ts:97-102 | thread ids are distinct, so the switch finds the service's thread by id and changes only its unread count, to 0 |
| Intent.PostedAfterRouting | src/lib/intent.ts:245-256 | posting to the routed thread keeps every other thread as routing left it; the routed thread shows the last post and keeps the unread count routing gave it |
| Intent.Dispatcher.ApplyEffect | src/lib/intent.ts:258-1040 | the plan takes the reaction's update, its texts are posted to the active thread and that thread's preview follows them (`TouchedBy`), its callbacks are queued in order |
| Intent.Dispatcher.ChooseHotelBranch | src/lib/intent.ts:269-296 | without a string id, only the no-hotel text is posted and no step is added; with one, what ChooseHotelById states; the active thread's preview follows every post (`Followed`) |
| Intent.Dispatcher.Book | src/api/mock.ts:88-105 | the mock's booking of the id, the active thread's preview following its message (`Followed`), and nothing else |
| Intent.Dispatcher.ChooseHotelById | src/lib/intent.ts:271-294 | the mock books the id first; when the payload also names a hotel and a numeric price, an empty message and an in-progress summary step linked to it follow, with the payload's price and `near` (or "Selected area"); earlier messages and steps are kept and the counts added are exact; the active thread's preview follows every post (`Followed`) |
| Intent.Dispatcher.PayloadSummaryStep | src/lib/intent.ts:283-292 | an empty message, then an in-progress summary step linked to it; the active thread's preview follows the message (`Followed`) |
| Intent.Dispatcher.SelectHotelBranch | src/lib/intent.ts:297-303 | a string id books through the mock; otherwise the no-hotel text; the active thread's preview follows every post (`Followed`) |
| Intent.Dispatcher.OpenUrlBranch | src/lib/intent.ts:304-312 | a string url is opened and no thread changes; otherwise the demo notice is posted and the active thread's preview follows it (`Followed`) |
| Intent.Dispatcher.PayBranch | src/lib/intent.ts:313-318 | a positive numeric amount pays through the mock; otherwise the missing-amount text; the active thread's preview follows every post (`Followed`) |
| Intent.Dispatcher.ServiceWorkflowBranch | src/lib/intent.ts:405-411 | immigration runs the canned workflow; shipping posts the shipping card; others get the coming-soon line; the active thread's preview follows those posts (`TouchedBy`) |
| Intent.Dispatcher.RunActive | src/lib/intent.ts:263-411 | each method branch does what its own method states (search, booking, opened page, payment, canned workflow), posts only to the active thread, whose preview follows every post (`Followed`), and leaves plan, timers and cache alone |
| Intent.Dispatcher.RunBooking | src/lib/intent.ts:263-318 | the search, choose, select, open-url and pay branches, each with its own outcome; the active thread's preview follows every post (`Followed`) |
| Intent.Dispatcher.RunCanned | src/lib/intent.ts:383-411 | the moving-quotes, inventory, all-services and service-workflow branches append exactly their canned messages, and the active thread's preview follows them (`Followed`) |
| Intent.Dispatcher.DispatchIntent | src/lib/intent.ts:245-1040 | routing, then capture, then the branch: a service intent lands on that service's thread, which then has no unread messages; every branch's own outcome holds (for method branches the plan is the captured merge); everything posted goes to the routed thread and everything queued is addressed to it; that thread shows the last post's preview and time, every other thread is as it was, and at most the service's new thread is added (`ThreadsAfter`) |
| Intent.Dispatcher.Capture | src/lib/intent.ts:139-185 | the plan takes exactly the captured update |
| Intent.Dispatcher.RunBranch | src/lib/intent.ts:258-1040 | a method branch does what RunActive states and queues nothing; any other branch merges its plan update, appends its texts and queues its follow-ups last; either way the active thread's preview follows every post (`Followed`) |
| Intent.Dispatcher.FireTimer | src/lib/intent.ts:258-1040 | the next timer leaves the queue and the clock moves to it; its posts, calls and new timers go to the thread it captured, whichever thread is active; that thread's preview and unread count follow the posts (`TouchedBy`); the queue gains exactly the card a card workflow's start queues (`QueuedBy`) |
| Intent.Dispatcher.RunDeferred | src/lib/intent.ts:859-1017 | a callback posts its texts, or starts its call with the captured thread's instructions; the captured thread's preview and unread count follow whatever is posted; the queue gains exactly `QueuedBy` |
| Intent.Dispatcher.PostDeferred | src/lib/intent.ts:258-1040 | a callback that posts sends its texts to the captured thread and updates its preview and unread count; starting a card workflow queues its card one second later, and nothing else is queued |
| Intent.Dispatcher.PostText | src/lib/intent.ts:917-951 | the callbacks that post one text queue nothing and update the captured thread's preview and unread count for that text |
| Intent.QueuedBy | gullie-booking-ui/src/lib/serviceWorkflows.ts:48-95 | every timer a callback queues is addressed to the callback's own thread |
| BookingStore.LastUserTextMeans | gullie-booking-ui/src/store.ts:25-31 | none exactly when no message is the user's; otherwise the text of a user message that no user message follows |
| BookingStore.LastUserTextSnoc | gullie-booking-ui/src/store.ts:13-31 | an appended message changes the last user request only when it is the user's |
| BookingStore.Store.constructor | gullie-booking-ui/src/store.ts:8-11 | no messages and no steps |
| BookingStore.Store.AgentSay | gullie-booking-ui/src/store.ts:13-17 | appends exactly one assistant message with the text verbatim; the last user request and the steps are unchanged |
| BookingStore.Store.UserSay | gullie-booking-ui/src/store.ts:19-23 | appends one user message, which becomes the last user request |
| BookingStore.Store.GetLastUserRequest | gullie-booking-ui/src/store.ts:25-31 | the backward scan returns the last user message's text |
| BookingStore.Store.UpsertStep | gullie-booking-ui/src/store.ts:33-41 | the steps become the upsert of the old steps |
| BookingStore.Store.CompleteStep | gullie-booking-ui/src/store.ts:43-46 | the steps become the old steps with that id completed |
| BookingStore.Store.CreateStepId | gullie-booking-ui/src/store.ts:48-50 | a fresh id, spelt with the kind's name and `_` |
| BookingIntent.Classify | gullie-booking-ui/src/lib/intent.ts:27-91 | the default branch exactly for a label the `switch` does not list |
| BookingIntent.SwitchKeptByThreadedDispatcher | gullie-booking-ui/src/lib/intent.ts:29-89 | every label of this `switch` takes the same branch in the threaded dispatcher |
| BookingIntent.CalendarText | gullie-booking-ui/src/lib/intent.ts:85-89 | the calendar notice names the date when one is given |
| BookingIntent.UnknownText | gullie-booking-ui/src/lib/intent.ts:90-91 | the unknown-intent notice ends with the intent |
| BookingIntent.FailedHtml | gullie-booking-ui/src/lib/intent.ts:125-127 | the failure card holds the error text |
| BookingIntent.CardStep | gullie-booking-ui/src/lib/intent.ts:113-124 | a results card is an in-progress HTML step under the given id |
| BookingIntent.UpsertKeepsPlaced | gullie-booking-ui/src/lib/intent.ts:113-124 | an upsert keeps every pending placeholder on the timeline |
| BookingIntent.UpsertReplaces | gullie-booking-ui/src/lib/intent.ts:123-127 | upserting an existing placeholder replaces its data and nothing else |
| BookingIntent.ReplaceLast | gullie-booking-ui/src/lib/intent.ts:113-124 | a step just appended is replaced in place at the end |
| BookingIntent.BookingDispatcher.constructor | gullie-booking-ui/src/store.ts:8-11 | a fresh store; no cache, calls, opened pages or mock calls |
| BookingIntent.BookingDispatcher.StartCall | gullie-booking-ui/src/lib/openai.ts:13-38 | without a key the placeholder becomes the failure card; otherwise the call joins those in flight |
| BookingIntent.BookingDispatcher.CompleteCall | gullie-booking-ui/src/lib/intent.ts:118-127 | the first answer starts the card call; the card is cached and replaces the placeholder; a failure replaces it with the failure card; no message is added |
| BookingIntent.BookingDispatcher.Overwrite | gullie-booking-ui/src/lib/intent.ts:123-127 | the placeholder step is replaced in place |
| BookingIntent.BookingDispatcher.PostStep | gullie-booking-ui/src/lib/intent.ts:105-115 | an empty message, then a step linked to it |
| BookingIntent.BookingDispatcher.Say | gullie-booking-ui/src/store.ts:13-17 | one assistant message and nothing else |
| BookingIntent.BookingDispatcher.HandleHotelSearch | gullie-booking-ui/src/lib/intent.ts:97-128 | a cached query posts its card as a step; otherwise the loading placeholder is posted and the search starts |
| BookingIntent.BookingDispatcher.Search | gullie-booking-ui/src/lib/intent.ts:113-127 | the loading placeholder is posted and the first-stage call started, or the placeholder already shows the failure |
| BookingIntent.BookingDispatcher.Request | gullie-booking-ui/src/lib/intent.ts:118-127 | once the loading step is posted, the first-stage call starts, or that same step already shows the failure card |
| BookingIntent.BookingDispatcher.ChooseHotelBranch | gullie-booking-ui/src/lib/intent.ts:35-62 | a string id calls the mock's booking; the payload's summary is posted when it names a hotel and a numeric price |
| BookingIntent.BookingDispatcher.SelectBranch | gullie-booking-ui/src/lib/intent.ts:63-69 | a string id calls the mock's booking; otherwise the no-hotel text |
| BookingIntent.BookingDispatcher.OpenUrlBranch | gullie-booking-ui/src/lib/intent.ts:70-78 | a string url is opened; otherwise the demo notice |
| BookingIntent.BookingDispatcher.PayBranch | gullie-booking-ui/src/lib/intent.ts:79-84 | a positive numeric amount calls the mock's payment; otherwise the missing-amount text |
| BookingIntent.BookingDispatcher.DispatchIntent | gullie-booking-ui/src/lib/intent.ts:25-93 | the normalized intent's branch runs on the decoded payload; an unknown intent gets the notice naming it |

## Left out

- Network, storage and page: `fetch`, `localStorage`, `window.open`, the DOM.
  The gateway's reply is a parameter of `CompleteCall`. The stored key and
  model are fields. Opened URLs are recorded in a list.
- The auto-scroll `setTimeout` in `gullieSay` (`src/store.ts:34-39`). It only
  touches the DOM.
- The `.catch` fallback of `startServiceConversation`. In the model, importing
  the workflow module never fails.
- Wording of HTML cards, prompts and long replies. These are opaque templates
  of the `Host`; the model states which arguments each one receives.
- `JSON.parse`, `JSON.stringify`, `stripHtmlTags`, `Number(string)`,
  `String(number)` and `toLocaleDateString` are uninterpreted functions of
  the `Host`.
- `toLowerCase` folds ASCII letters only. Other characters are kept.
- Object keys inherited from the prototype (`constructor`, `__proto__`) are
  not looked up in the intent and phrase tables.
- Random and time-based ids and confirmation codes: ids come from a counter,
  and the payment code is a parameter.
- The date picker's current value is a parameter of `DispatchIntent`.
- `handleImmigrationPartnerConnection` (`src/lib/intent.ts:1190-1237`) asks
  for an email address and a name and sends an email. The model posts only its
  opening line. `src/lib/email.ts` is not part of this model.
- `handleBookingQuery` (`src/api/mock.ts:53-86`): the venue regex, geocoding
  and the haversine distance are floating-point geography. Each hotel carries
  its distance. The filter and sort are modelled by `BookingMock.SelectHotels`.
- The booking demo's own mock (`gullie-booking-ui/src/api/mock.ts`) is not
  part of this model. `BookingIntent` records the calls it makes
  (`mockCalls`).
- Array and object query keys. A `Map` compares such keys by identity, so a
  fresh one never equals an earlier key and is never cached (`Cacheable`).
  Numbers, booleans, `null` and `undefined` are compared by value and are
  cached like strings.
- Concurrency between callbacks is a queue of timers and calls in flight. The
  order in which answers arrive is chosen by the caller of `CompleteCall`.
- Floating point: prices, amounts and budgets are `real`. NaN is a separate
  value.
- BookingMock.ParseBudget: the value is an exact decimal. It does not model
  binary floating-point rounding of `Number`.
- The `set_accommodation_budget` reply (`src/lib/intent.ts:769-789`) always says
  both budget and timeline are in hand, because both fields it tests fall back
  to the always-truthy details. The model keeps this (`StayReplyAlwaysClaimsBoth`).
- IntentRules.Instructions: states only the base prefix and the per-service
  context. The text of each context is an opaque template.
- SessionStore.Preview: when the 50th code unit is the first half of a
  surrogate pair, `.slice(0, 50)` keeps that lone half. A Dafny `char` cannot
  hold one, so the model stops before the pair.
- Intent.PayloadSummary: the summary's venue name, address and hotel name are
  the payload's values read as text (`Text`). The source stores the raw values
  (`as any`), so a number or an object there stays one in the step. The step's
  data is typed with strings, so the model keeps that type.
- Intent.Dispatcher.FireTimer: requires the timer it runs to be the next one
  (earliest due, first queued), which is what the event loop guarantees.

