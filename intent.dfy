/**
 * The threaded dispatcher (`dispatchIntent` and `handleHotelSearch`): it
 * decodes the payload, routes the intent to its service's thread and captures
 * that thread, records profile data, and runs the intent's branch. Branches
 * that only merge, post and schedule are applied from their `Effect`; the rest
 * book, search, open pages or run a canned workflow. Deferred callbacks wait on
 * the store's timer queue, gateway calls in flight on this object's call list;
 * `FireTimer` and `CompleteCall` are the events that resume them.
 */
module Intent {
  import opened Wrappers
  import opened Js
  import opened Environment
  import opened Timeline
  import opened SessionStore
  import opened CannedWorkflows
  import opened IntentTables
  import opened IntentRules
  import Gateway
  import Payload
  import ServiceWorkflows
  import BookingMock

  // ---------------------------------------------------------------------
  // Gateway calls in flight
  // ---------------------------------------------------------------------

  /** What a call in flight was made for, with what its continuation captured. */
  datatype Purpose =
    | HotelFacts(query: Value)               // first stage of a hotel search: web results
    | HotelCard(query: Value)                // second stage: the results card
    | StayOptions(thread: Id, toCity: Value) // the temporary-housing card
    | FollowUp(thread: Id)                   // the default branch's continuation

  datatype Call = Call(body: Gateway.Body, purpose: Purpose)

  /** The thread a call's answer goes to; the hotel search posts to whichever thread is active then. */
  function CallThread(p: Purpose): Option<Id> {
    if p.StayOptions? || p.FollowUp? then Some(p.thread) else None
  }

  /** The tool the first stage of a hotel search enables. */
  const WebSearch: Value := Obj(map["type" := Str("web_search_preview")])

  /** The first stage's options: the search instructions and the web-search tool. */
  function SearchOptions(h: Host): Gateway.Options {
    Gateway.Options(Some(Render(h, SearchFactsInstructions, [])), None, Some([WebSearch]))
  }

  /** The posts a failed call leads to: the search-failed card, the plain stay question, or nothing. */
  function FailurePosts(h: Host, p: Purpose, f: Gateway.Failure): (r: seq<string>)
    ensures |r| <= 1
    ensures p.FollowUp? <==> r == []
  {
    match p
    case HotelFacts(_) => [Render(h, SearchFailedCard, [Gateway.ErrorText(f)])]
    case HotelCard(_) => [Render(h, SearchFailedCard, [Gateway.ErrorText(f)])]
    case StayOptions(_, toCity) => [Render(h, Prose(StayOptionsFallback), [Text(h, toCity)])]
    case FollowUp(_) => []
  }

  // ---------------------------------------------------------------------
  // What deferred callbacks post
  // ---------------------------------------------------------------------

  /** The dog card, filled with the plan's cities as they stand when the timer fires. */
  function DogCard(h: Host, plan: Option<Plan>): string {
    Render(h, DogDetailsCard, [Text(h, Or(PlanValue(plan, FromCity), Str("your origin"))),
                               Text(h, Or(PlanValue(plan, ToCity), Str("your destination")))])
  }

  /** The follow-up a move type gets one second later; other move types get none. */
  function MoveFollowUp(h: Host, moveType: Value): (r: seq<string>)
    ensures |r| == 1 <==> moveType == Str("interstate") || moveType == Str("international") || moveType == Str("local")
    ensures |r| <= 1
  {
    if moveType == Str("interstate") then [Render(h, Prose(InterstateFollowUp), [])]
    else if moveType == Str("international") then [Render(h, Prose(InternationalFollowUp), [])]
    else if moveType == Str("local") then [Render(h, Prose(LocalFollowUp), [])]
    else []
  }

  /** The prompt the temporary-housing callback sends: the destination, and the origin when there is one. */
  function StayPrompt(h: Host, toCity: Value, fromCity: Value): Value {
    var to := Text(h, toCity);
    Str(Render(h, AccommodationPrompt, [to, if Truthy(fromCity) then " from " + Text(h, fromCity) else "", to, to]))
  }

  /** The prompt the default branch's continuation sends. */
  function ContinuationInput(h: Host, intent: string, data: Value, handled: bool, serviceType: string): Value {
    Str(Render(h, ContinuationPrompt(handled), [intent, h.stringify(data), serviceType, serviceType]))
  }

  /** The timers an effect queues, in order, each due `delay` after `now`. */
  function Scheduled(later: seq<Later>, now: int): (r: seq<Timer>)
    ensures |r| == |later|
    ensures forall k :: 0 <= k < |later| ==> r[k] == Timer(now + later[k].delay, later[k].action)
  {
    if later == [] then [] else [Timer(now + later[0].delay, later[0].action)] + Scheduled(later[1..], now)
  }

  /** The timers queued after `before` are addressed to `target` (the partner hand-off is addressed to none). */
  predicate QueuedFor(before: seq<Timer>, after: seq<Timer>, target: Id) {
    |before| <= |after| && after[..|before|] == before
    && forall k :: |before| <= k < |after| ==> Target(after[k].action).Some? ==> Target(after[k].action) == Some(target)
  }

  /** The messages added after `before` all go to thread `t`. */
  predicate PostedTo(before: seq<Message>, after: seq<Message>, t: Id) {
    |before| <= |after| && after[..|before|] == before
    && forall k :: |before| <= k < |after| ==> after[k].threadId == t
  }

  /**
   * Routing as values: `threads` and `timers` after the switch to `active`,
   * given the thread list and queue before it.
   */
  predicate Routed(service: string, before: seq<Thread>, timersBefore: seq<Timer>,
                   threads: seq<Thread>, timers: seq<Timer>, active: Id)
  {
    && ServiceIndex(threads, service) >= 0
    && threads[ServiceIndex(threads, service)].id == active
    && Cleared(service, before, threads, active)
    && (ServiceIndex(before, service) >= 0 ==> SameThreads(before, threads) && timers == timersBefore)
    && (ServiceIndex(before, service) < 0 ==>
          |threads| == |before| + 1 && SameThreads(before, threads[..|before|]))
  }

  /**
   * The service's thread is the active one and its unread counter is
   * cleared; no other thread changed.
   */
  predicate Cleared(service: string, before: seq<Thread>, threads: seq<Thread>, active: Id)
    requires ServiceIndex(threads, service) >= 0
  {
    && ThreadIndex(threads, active) == ServiceIndex(threads, service)
    && threads[ServiceIndex(threads, service)].unreadCount == 0
    && OthersKept(before, threads, active)
  }

  /**
   * The thread list after routing to `active` and posting there: the old
   * threads keep their places, ids and services, at most one thread (the
   * active one) is appended, and every thread but the active one is exactly
   * as it was.
   */
  predicate OthersKept(before: seq<Thread>, after: seq<Thread>, active: Id) {
    && |before| <= |after| <= |before| + 1
    && SameThreads(before, after[..|before|])
    && (|after| > |before| ==> after[|before|].id == active)
    && forall j :: 0 <= j < |before| && after[j].id != active ==> after[j] == before[j]
  }

  /**
   * Looking the service's thread up (or creating it) and then switching to
   * it routes to that thread, whose unread counter is cleared; a creation
   * queues only its own start.
   */
  lemma RouteFacts(service: string, before: seq<Thread>, timersBefore: seq<Timer>,
                   created: seq<Thread>, timersCreated: seq<Timer>, after: seq<Thread>, t: Thread, now: int)
    requires ServiceIndex(before, service) >= 0 ==>
               t == before[ServiceIndex(before, service)] && created == before && timersCreated == timersBefore
    requires ServiceIndex(before, service) < 0 ==>
               created == before + [t] && timersCreated == timersBefore + [Timer(now, StartWorkflow(service, t.id))]
    requires ServiceIndex(created, service) >= 0 && created[ServiceIndex(created, service)] == t
    requires DistinctServices(before) ==> DistinctServices(created)
    requires SameThreads(created, after)
    requires ServiceIndex(after, service) >= 0 && Cleared(service, before, after, t.id)
    ensures Routed(service, before, timersBefore, after, timersCreated, t.id)
    ensures QueuedFor(timersBefore, timersCreated, t.id)
    ensures DistinctServices(before) ==> DistinctServices(after)
  {
    SameThreadsLookups(created, after, t.id, service);
    if ServiceIndex(before, service) < 0 {
      CreatedPrefix(before, t, after);
      assert timersCreated[|timersBefore|].action == StartWorkflow(service, t.id);
    }
  }

  /** What the switch does to the thread list, as `Routed` states it. */
  lemma RoutedKept(service: string, before: seq<Thread>, created: seq<Thread>, after: seq<Thread>, t: Thread)
    requires ServiceIndex(before, service) >= 0 ==> t == before[ServiceIndex(before, service)] && created == before
    requires ServiceIndex(before, service) < 0 ==> created == before + [t]
    requires var m := ServiceIndex(created, service);
      && m >= 0 && created[m] == t
      && ThreadIndex(created, t.id) == m && |after| == |created|
      && after[m] == t.(unreadCount := 0)
      && forall j :: 0 <= j < |created| && j != m ==> after[j] == created[j]
    ensures SameThreads(created, after)
    ensures ServiceIndex(after, service) == ServiceIndex(created, service)
    ensures Cleared(service, before, after, t.id)
  {
    SameThreadsLookups(created, after, t.id, service);
    var m := ServiceIndex(created, service);
    if ServiceIndex(before, service) < 0 {
      assert m == |before| by {
        assert created[|before|].service == service;
      }
    }
    OthersUntouched(before, created, after, t, m);
  }

  /** Only the thread at `m`, the one switched to, changed; it is the old one in place or the one appended. */
  lemma OthersUntouched(before: seq<Thread>, created: seq<Thread>, after: seq<Thread>, t: Thread, m: nat)
    requires created == before || (created == before + [t] && m == |before|)
    requires m < |created| && created[m] == t && |after| == |created| && after[m] == t.(unreadCount := 0)
    requires forall j :: 0 <= j < |created| && j != m ==> after[j] == created[j]
    ensures OthersKept(before, after, t.id)
  {
    assert SameThreads(before, after[..|before|]) by {
      forall j | 0 <= j < |before| ensures after[j].id == before[j].id && after[j].service == before[j].service {
        assert created[j] == before[j];
      }
    }
    forall j | 0 <= j < |before| && after[j].id != t.id ensures after[j] == before[j] {
      assert j != m && created[j] == before[j];
    }
  }

  /** Switching to the service's thread `t` clears its counter and nothing else; ids are distinct, so it is found by id. */
  lemma Switched(created: seq<Thread>, after: seq<Thread>, t: Thread, service: string)
    requires DistinctIds(created)
    requires ServiceIndex(created, service) >= 0 && created[ServiceIndex(created, service)] == t
    requires ThreadIndex(created, t.id) >= 0 ==>
               after == created[ThreadIndex(created, t.id) := created[ThreadIndex(created, t.id)].(unreadCount := 0)]
    ensures var m := ServiceIndex(created, service);
      && ThreadIndex(created, t.id) == m && |after| == |created|
      && after[m] == t.(unreadCount := 0)
      && forall j :: 0 <= j < |created| && j != m ==> after[j] == created[j]
  {
    var m := ServiceIndex(created, service);
    assert created[m].id == t.id;
  }

  /**
   * Posting to the routed thread keeps the routing's promise about the other
   * threads and leaves the routed thread with the last post's preview and
   * time, and with the unread counter routing left it.
   */
  lemma PostedAfterRouting(before: seq<Thread>, routed: seq<Thread>, after: seq<Thread>,
                           messages: seq<Message>, messagesAfter: seq<Message>, active: Id, now: int,
                           strip: string -> string)
    requires OthersKept(before, routed, active)
    requires Tracked(messages, messagesAfter, routed, after, active, now, strip)
    ensures ThreadsAfter(before, after, active, messages, messagesAfter, now, strip)
    ensures ThreadIndex(after, active) == ThreadIndex(routed, active)
    ensures var k := ThreadIndex(after, active);
      k >= 0 ==> after[k].unreadCount == routed[k].unreadCount
  {
    TrackedEffect(messages, messagesAfter, routed, after, active, now, strip);
    SameThreadsLookups(routed, after, active, "");
    if |messagesAfter| > |messages| {
      OthersKeptStep(before, routed, after, active);
    }
  }

  /**
   * The thread list after a dispatch that routed to `active` and posted
   * there: the others kept, and the active thread showing the last post.
   */
  predicate ThreadsAfter(before: seq<Thread>, after: seq<Thread>, active: Id,
                         messages: seq<Message>, messagesAfter: seq<Message>, now: int, strip: string -> string)
  {
    && OthersKept(before, after, active)
    && var k := ThreadIndex(after, active);
       k >= 0 && |messagesAfter| > |messages| ==>
         after[k].lastMessage == Some(Preview(Trim(strip(messagesAfter[|messagesAfter| - 1].text))))
         && after[k].lastMessageTime == Some(now)
  }

  /** Changing only the active thread keeps `OthersKept`. */
  lemma OthersKeptStep(before: seq<Thread>, routed: seq<Thread>, after: seq<Thread>, active: Id)
    requires OthersKept(before, routed, active) && SameThreads(routed, after)
    requires forall j :: 0 <= j < |routed| && j != ThreadIndex(routed, active) ==> after[j] == routed[j]
    ensures OthersKept(before, after, active)
  {
    forall j | 0 <= j < |before|
      ensures after[..|before|][j].id == before[j].id && after[..|before|][j].service == before[j].service
    {
      assert routed[..|before|][j] == routed[j];
    }
  }

  /** The threads that were there before a creation keep their ids and services. */
  lemma CreatedPrefix(before: seq<Thread>, t: Thread, after: seq<Thread>)
    requires SameThreads(before + [t], after)
    ensures |after| == |before| + 1 && SameThreads(before, after[..|before|])
  {
    forall j | 0 <= j < |before|
      ensures after[..|before|][j].id == before[j].id && after[..|before|][j].service == before[j].service
    {
      assert (before + [t])[j] == before[j];
    }
  }

  lemma QueuedForChain(a: seq<Timer>, b: seq<Timer>, c: seq<Timer>, t: Id)
    requires QueuedFor(a, b, t) && QueuedFor(b, c, t)
    ensures QueuedFor(a, c, t)
  {
    assert c[..|a|] == c[..|b|][..|a|];
    forall k | |a| <= k < |c| && Target(c[k].action).Some?
      ensures Target(c[k].action) == Some(t)
    {
      if k < |b| {
        assert c[k] == c[..|b|][k] == b[k];
      }
    }
  }

  lemma PostedToChain(a: seq<Message>, b: seq<Message>, c: seq<Message>, t: Id)
    requires PostedTo(a, b, t) && PostedTo(b, c, t)
    ensures PostedTo(a, c, t)
  {
    assert c[..|a|] == c[..|b|][..|a|];
    forall k | |a| <= k < |c|
      ensures c[k].threadId == t
    {
      if k < |b| {
        assert c[k] == c[..|b|][k] == b[k];
      }
    }
  }

  /**
   * The outcome of booking with the mock's `choice`: nothing when there is
   * none; otherwise the choice line and one step holding the choice, with
   * everything earlier kept.
   */
  predicate BookedAs(choice: Option<StepData>, stepsBefore: seq<Step>, steps: seq<Step>,
                    before: seq<Message>, messages: seq<Message>, thread: Id)
  {
    && (choice.None? ==> messages == before && steps == stepsBefore)
    && (choice.Some? ==>
          && Appended(before, messages, Gullie, [BookingMock.ChoiceText], thread)
          && |steps| == |stepsBefore| + 1 && steps[..|stepsBefore|] == stepsBefore
          && steps[|stepsBefore|].data == choice.value)
  }

  /** The booking's outcome followed by one empty message and one more step. */
  predicate BookedThenSummary(choice: Option<StepData>, stepsBefore: seq<Step>, steps: seq<Step>,
                             before: seq<Message>, messages: seq<Message>, thread: Id)
  {
    && |steps| == |stepsBefore| + (if choice.Some? then 2 else 1)
    && steps[..|stepsBefore|] == stepsBefore
    && (choice.Some? ==> steps[|stepsBefore|].data == choice.value)
    && Appended(before, messages, Gullie, (if choice.Some? then [BookingMock.ChoiceText] else []) + [""], thread)
  }

  /** A booking, then an empty message and a step appended after it. */
  lemma SummaryAfterBooking(choice: Option<StepData>, stepsBefore: seq<Step>, mid: seq<Step>, step: Step,
                            before: seq<Message>, midMessages: seq<Message>, messages: seq<Message>, thread: Id)
    requires BookedAs(choice, stepsBefore, mid, before, midMessages, thread)
    requires Appended(midMessages, messages, Gullie, [""], thread)
    ensures BookedThenSummary(choice, stepsBefore, mid + [step], before, messages, thread)
  {
    var steps := mid + [step];
    assert steps[..|mid|] == mid;
    if choice.Some? {
      assert steps[..|stepsBefore|] == mid[..|stepsBefore|];
      assert steps[|stepsBefore|] == mid[|stepsBefore|];
      AppendedChain(before, midMessages, messages, Gullie, [BookingMock.ChoiceText], [""], thread);
    } else {
      assert ([] + [""]) == [""];
    }
  }

  lemma SameThreadsChain(a: seq<Thread>, b: seq<Thread>, c: seq<Thread>)
    requires SameThreads(a, b) && SameThreads(b, c)
    ensures SameThreads(a, c)
  {
  }

  /** The one-thread-per-service rule sees only services, which a post never changes. */
  lemma KeepsDistinct(a: seq<Thread>, b: seq<Thread>)
    requires SameThreads(a, b)
    ensures DistinctServices(a) ==> DistinctServices(b)
  {
    if DistinctServices(a) {
      forall j, k | 0 <= j < k < |b| ensures b[j].service != b[k].service {
        assert a[j].service != a[k].service;
      }
    }
  }

  /** Scheduling one more follow-up adds its timer at the end. */
  lemma ScheduledStep(later: seq<Later>, k: nat, now: int)
    requires k < |later|
    ensures Scheduled(later[..k + 1], now) == Scheduled(later[..k], now) + [Timer(now + later[k].delay, later[k].action)]
  {
    var a := Scheduled(later[..k + 1], now);
    var b := Scheduled(later[..k], now) + [Timer(now + later[k].delay, later[k].action)];
    assert |a| == |b|;
    forall j | 0 <= j < |a| ensures a[j] == b[j] {
      assert later[..k + 1][j] == later[j];
    }
  }

  lemma ScheduledQueuedFor(before: seq<Timer>, later: seq<Later>, now: int, t: Id)
    requires FollowUpsTo(later, t)
    ensures QueuedFor(before, before + Scheduled(later, now), t)
  {
    var after := before + Scheduled(later, now);
    assert after[..|before|] == before;
    forall k | |before| <= k < |after| && Target(after[k].action).Some?
      ensures Target(after[k].action) == Some(t)
    {
      assert after[k] == Scheduled(later, now)[k - |before|];
    }
  }

  /** `safeParse(rawPayload)`, with `undefined` for a payload that does not decode. */
  function Decoded(h: Host, raw: Option<string>): Value {
    match Payload.SafeParse(h, raw)
    case Some(v) => v
    case None => Undefined
  }

  const NoHotelText := "I could not determine which hotel to choose."
  const NoUrlText := "(demo) Could not open URL"
  const NoAmountText := "Payment amount missing."

  /** `Number(payload?.price ?? 0)` and `Number(payload?.amount ?? 0)`. */
  function NumberOr0(h: Host, v: Value): (r: Value)
    ensures r.Num? || r.NaN?
    ensures v.Undefined? || v.Null? ==> r == Num(0.0)
  {
    Number(h, Coalesce(v, Num(0.0)))
  }

  /**
   * The summary `choose_hotel` builds from its own payload: named venue (or
   * "Selected area"), the payload's hotel and price. The payload's `near`,
   * `name` and `address` are read as text, as the step's string fields expect.
   */
  function PayloadSummary(h: Host, p: Value, hotelId: string, price: real): (d: StepData)
    ensures d.BookingSummaryData? && d.hotel.id == hotelId && d.hotel.price == price
    ensures d.venue.name == Text(h, Or(Get(p, "near"), Str("Selected area")))
    ensures !Truthy(Get(p, "near")) ==> d.venue.name == "Selected area"
  {
    var address := Text(h, Or(Get(p, "address"), Str("")));
    BookingSummaryData(Venue(Text(h, Or(Get(p, "near"), Str("Selected area"))), address, GeoPoint(0.0, 0.0)),
                       Hotel(hotelId, Text(h, Get(p, "name")), price, GeoPoint(0.0, 0.0), address, None, None),
                       None)
  }

  /**
   * What a deferred callback that posts right away posts, read when it fires:
   * the captured text, the workflow greeting, the shipping question, the dog
   * card with the plan's cities, the move-type follow-up, the partner intro.
   */
  function DeferredPosts(h: Host, plan: Option<Plan>, d: Deferred): (r: seq<string>)
    requires !d.AccommodationContent? && !d.Continuation?
    ensures !d.MoveTypeFollowUp? ==> |r| == 1
    ensures |r| <= 1
    ensures d.Post? ==> r == [d.text]
  {
    match d
    case Post(_, text) => [text]
    case StartWorkflow(service, _) => [ServiceWorkflows.Greeting(h, service)]
    case AskShippingType(_, size) => [ServiceWorkflows.ShippingTypeQuestion(h, size)]
    case DogDetails(_) => [DogCard(h, plan)]
    case MoveTypeFollowUp(_, moveType) => MoveFollowUp(h, moveType)
    case PartnerConnection => [Render(h, Prose(PartnerIntro), [])]
  }

  /**
   * The timers a callback that posts right away queues: starting one of the
   * four card workflows queues its card for 1000 ms later; nothing else does.
   */
  function QueuedBy(h: Host, d: Deferred, now: int): (r: seq<Timer>)
    ensures forall k :: 0 <= k < |r| ==> Target(r[k].action) == Target(d)
  {
    if d.StartWorkflow? && d.service in ServiceWorkflows.CardWorkflows then
      [Timer(now + 1000, Post(d.thread, ServiceWorkflows.FollowUpCard(h, d.service)))]
    else []
  }

  /** The options of a deferred call: the instructions for the thread's service, low effort. */
  function DeferredOptions(h: Host, threads: seq<Thread>, t: Id): Gateway.Options {
    Gateway.Options(Some(Instructions(h, ServiceFromThread(threads, t))), Some(Gateway.Low), None)
  }

  /** The input of a deferred call: the housing prompt, or the continuation prompt naming the thread's service. */
  function DeferredInput(h: Host, threads: seq<Thread>, d: Deferred): Value
    requires d.AccommodationContent? || d.Continuation?
  {
    if d.AccommodationContent? then StayPrompt(h, d.toCity, d.fromCity)
    else ContinuationInput(h, d.intent, d.data, d.handled, ServiceFromThread(threads, d.thread))
  }

  /** What a deferred call is for; its answer goes to the thread the callback captured. */
  function DeferredPurpose(d: Deferred): (r: Purpose)
    requires d.AccommodationContent? || d.Continuation?
    ensures CallThread(r) == Some(d.thread)
  {
    if d.AccommodationContent? then StayOptions(d.thread, d.toCity) else FollowUp(d.thread)
  }

  /** The timer the event loop runs next: earliest due, first queued among equals. */
  predicate Next(timers: seq<Timer>, k: nat) {
    k < |timers|
    && (forall j :: 0 <= j < |timers| ==> timers[k].due <= timers[j].due)
    && (forall j :: 0 <= j < k ==> timers[j].due > timers[k].due)
  }

  // ---------------------------------------------------------------------
  // The dispatcher
  // ---------------------------------------------------------------------

  /** What a method branch can change, as it stood before the branch ran. */
  datatype Snapshot = Snapshot(messages: seq<Message>, steps: seq<Step>, calls: seq<Call>,
                               cache: map<Value, string>, openedUrls: seq<string>)

  /** What `service_workflow` posts: the canned immigration workflow, or the service's one reply. */
  function ServiceWorkflowPosts(h: Host, service: Value): seq<string> {
    if service == Str("immigration") then ["", Render(h, ImmigrationWorkflowCard, [])]
    else [ServiceWorkflowReply(h, service)]
  }

  class Dispatcher {
    const store: Store
    /** The stored API key and model name (`localStorage`), read when a call is made. */
    const credential: Option<string>
    const storedModel: Option<string>
    /** `SEARCH_CACHE`: query -> rendered results card. */
    var cache: map<Value, string>
    /** Gateway calls whose answer has not arrived yet. */
    var calls: seq<Call>
    /** URLs handed to `window.open`. */
    var openedUrls: seq<string>

    /**
     * The store is valid and holds at most one thread per service; only
     * queries that can hit are cached; a call is in flight only when a key
     * is stored (without one, every call fails before a request is made).
     */
    ghost predicate Valid()
      reads this, store
    {
      && store.Valid()
      && DistinctServices(store.threads)
      && (forall q :: q in cache ==> Cacheable(q))
      && (|calls| > 0 ==> credential.Some? && credential.value != "")
    }

    ghost function Snap(): Snapshot
      reads this, store
    {
      Snapshot(store.messages, store.steps, calls, cache, openedUrls)
    }

    constructor(host: Host, now: int, credential: Option<string>, storedModel: Option<string>)
      ensures Valid() && fresh(store)
      ensures store.host == host && store.now == now
      ensures store.threads == [GeneralThread] && store.activeThreadId == GeneralId
      ensures store.messages == [] && store.steps == [] && store.plan == None && store.timers == []
      ensures this.credential == credential && this.storedModel == storedModel
      ensures cache == map[] && calls == [] && openedUrls == []
    {
      store := new Store(host, now);
      this.credential := credential;
      this.storedModel := storedModel;
      cache := map[];
      calls := [];
      openedUrls := [];
    }

    /**
     * `callOpenAIResponse` up to the request: without a key the failure is
     * handled at once (the rejection settles before any other event);
     * otherwise the call joins the calls in flight.
     */
    method StartCall(input: Value, opts: Gateway.Options, purpose: Purpose)
      requires Valid()
      modifies this, store
      ensures Valid()
      ensures var r := Gateway.Request(credential, Gateway.SelectedModel(storedModel), input, opts);
        && (r.Success? ==>
              calls == old(calls) + [Call(r.value, purpose)] && store.messages == old(store.messages)
              && store.threads == old(store.threads))
        && (r.Failure? ==>
              (calls == old(calls)
               && Appended(old(store.messages), store.messages, Gullie, FailurePosts(store.host, purpose, r.error),
                           if CallThread(purpose).Some? then Addressee(CallThread(purpose), store.activeThreadId)
                           else store.activeThreadId)
               && store.threads == TouchedBy(old(store.threads), Addressee(CallThread(purpose), store.activeThreadId),
                                             FailurePosts(store.host, purpose, r.error), store.activeThreadId, store.now,
                                             store.host.stripHtml)))
      ensures store.timers == old(store.timers) && store.steps == old(store.steps) && store.plan == old(store.plan)
      ensures SameThreads(old(store.threads), store.threads) && store.activeThreadId == old(store.activeThreadId)
      ensures store.now == old(store.now) && cache == old(cache) && openedUrls == old(openedUrls)
    {
      var r := Gateway.Request(credential, Gateway.SelectedModel(storedModel), input, opts);
      if r.Success? {
        calls := calls + [Call(r.value, purpose)];
      } else {
        Fail(purpose, r.error);
      }
    }

    /** The catch blocks: post what the failed call leads to. */
    method Fail(purpose: Purpose, f: Gateway.Failure)
      requires Valid()
      modifies store
      ensures Valid()
      ensures Appended(old(store.messages), store.messages, Gullie, FailurePosts(store.host, purpose, f),
                       if CallThread(purpose).Some? then Addressee(CallThread(purpose), store.activeThreadId)
                       else store.activeThreadId)
      ensures store.timers == old(store.timers) && store.steps == old(store.steps) && store.plan == old(store.plan)
      ensures store.threads == TouchedBy(old(store.threads), Addressee(CallThread(purpose), store.activeThreadId),
                                         FailurePosts(store.host, purpose, f), store.activeThreadId, store.now, store.host.stripHtml)
      ensures store.activeThreadId == old(store.activeThreadId) && store.now == old(store.now)
    {
      var posts := FailurePosts(store.host, purpose, f);
      if posts != [] {
        var _ := Reply(posts[0], CallThread(purpose));
        assert posts == [posts[0]];
      }
      KeepsDistinct(old(store.threads), store.threads);
    }

    /**
     * An answer arrives for call `k`. The hotel search's first stage feeds the
     * second; the second caches and posts the card; the housing card and the
     * continuation go to the thread captured when they were scheduled; a
     * failure is handled as at the start.
     */
    method CompleteCall(k: nat, reply: Gateway.Reply)
      requires Valid() && k < |calls|
      modifies this, store
      ensures Valid()
      ensures var c := old(calls)[k]; var r := Gateway.Response(reply, store.host.showNumber);
        var rest := old(calls)[..k] + old(calls)[k + 1..];
        && (r.Failure? ==>
              (calls == rest && cache == old(cache)
               && Appended(old(store.messages), store.messages, Gullie, FailurePosts(store.host, c.purpose, r.error),
                           if CallThread(c.purpose).Some? then Addressee(CallThread(c.purpose), store.activeThreadId)
                           else store.activeThreadId)
               && store.threads == TouchedBy(old(store.threads), Addressee(CallThread(c.purpose), store.activeThreadId),
                                             FailurePosts(store.host, c.purpose, r.error), store.activeThreadId,
                                             store.now, store.host.stripHtml)))
        && (r.Success? && c.purpose.HotelFacts? ==>
              calls == rest + [Call(Gateway.RequestBody(Gateway.SelectedModel(storedModel),
                                                         Str(Render(store.host, RenderPrompt, [r.value])),
                                                         Gateway.Options(Some(Render(store.host, SystemInstructions, [])), None, None)),
                                    HotelCard(c.purpose.query))]
              && store.messages == old(store.messages) && store.threads == old(store.threads) && cache == old(cache))
        && (r.Success? && c.purpose.HotelCard? ==>
              calls == rest
              && cache == (if Cacheable(c.purpose.query) then old(cache)[c.purpose.query := r.value] else old(cache))
              && Appended(old(store.messages), store.messages, Gullie, [r.value], store.activeThreadId)
              && store.threads == TouchedBy(old(store.threads), store.activeThreadId, [r.value], store.activeThreadId,
                                            store.now, store.host.stripHtml))
        && (r.Success? && CallThread(c.purpose).Some? ==>
              calls == rest && cache == old(cache)
              && Appended(old(store.messages), store.messages, Gullie, [r.value],
                          Addressee(CallThread(c.purpose), store.activeThreadId))
              && store.threads == TouchedBy(old(store.threads), Addressee(CallThread(c.purpose), store.activeThreadId),
                                            [r.value], store.activeThreadId, store.now, store.host.stripHtml))
      ensures store.timers == old(store.timers) && store.steps == old(store.steps) && store.plan == old(store.plan)
      ensures SameThreads(old(store.threads), store.threads) && store.activeThreadId == old(store.activeThreadId)
      ensures store.now == old(store.now) && openedUrls == old(openedUrls)
    {
      var c := calls[k];
      var r := Gateway.Response(reply, store.host.showNumber);
      calls := calls[..k] + calls[k + 1..];
      if r.Failure? {
        Fail(c.purpose, r.error);
      } else if c.purpose.HotelFacts? {
        var opts := Gateway.Options(Some(Render(store.host, SystemInstructions, [])), None, None);
        StartCall(Str(Render(store.host, RenderPrompt, [r.value])), opts, HotelCard(c.purpose.query));
      } else {
        if c.purpose.HotelCard? && Cacheable(c.purpose.query) {
          cache := cache[c.purpose.query := r.value];
        }
        var _ := Reply(r.value, CallThread(c.purpose));
        KeepsDistinct(old(store.threads), store.threads);
      }
    }

    /**
     * `handleHotelSearch(payload)`: a cached card is reposted with no call;
     * otherwise the search starts.
     */
    method HandleHotelSearch(p: Value)
      requires Valid()
      modifies this, store
      ensures Valid()
      ensures HotelSearchDone(p, old(Snap()))
      ensures store.Followed(old(store.messages), old(store.threads))
      ensures cache == old(cache) && openedUrls == old(openedUrls)
      ensures store.timers == old(store.timers) && store.steps == old(store.steps) && store.plan == old(store.plan)
      ensures SameThreads(old(store.threads), store.threads) && store.activeThreadId == old(store.activeThreadId)
      ensures store.now == old(store.now)
    {
      var q := HotelQuery(store.host, p);
      if Cacheable(q) && q in cache {
        var _ := Reply(cache[q], None);
        KeepsDistinct(old(store.threads), store.threads);
      } else {
        Search(q);
      }
    }

    /** A cached card for the query is reposted with no call; otherwise the search has started. */
    ghost predicate HotelSearchDone(p: Value, w: Snapshot)
      reads this, store
    {
      var q := HotelQuery(store.host, p);
      && (Cacheable(q) && q in w.cache ==>
            Appended(w.messages, store.messages, Gullie, [w.cache[q]], store.activeThreadId) && calls == w.calls)
      && (!(Cacheable(q) && q in w.cache) ==> Searched(q, w.messages, w.calls))
    }

    /**
     * The searching card goes to the active thread; then the first stage is
     * requested, or, when the request cannot be made, the failure card follows.
     */
    ghost predicate Searched(q: Value, before: seq<Message>, callsBefore: seq<Call>)
      reads this, store
    {
      var r := Gateway.Request(credential, Gateway.SelectedModel(storedModel), q, SearchOptions(store.host));
      var searching := Render(store.host, SearchingCard, []);
      && (r.Success? ==>
            Appended(before, store.messages, Gullie, [searching], store.activeThreadId)
            && calls == callsBefore + [Call(r.value, HotelFacts(q))])
      && (r.Failure? ==>
            Appended(before, store.messages, Gullie, [searching] + FailurePosts(store.host, HotelFacts(q), r.error),
                     store.activeThreadId)
            && calls == callsBefore)
    }

    method Search(q: Value)
      requires Valid()
      modifies this, store
      ensures Valid()
      ensures Searched(q, old(store.messages), old(calls))
      ensures store.Followed(old(store.messages), old(store.threads))
      ensures cache == old(cache) && openedUrls == old(openedUrls)
      ensures store.timers == old(store.timers) && store.steps == old(store.steps) && store.plan == old(store.plan)
      ensures SameThreads(old(store.threads), store.threads) && store.activeThreadId == old(store.activeThreadId)
      ensures store.now == old(store.now)
    {
      var _ := Reply(Render(store.host, SearchingCard, []), None);
      KeepsDistinct(old(store.threads), store.threads);
      ghost var searching, threads := store.messages, store.threads;
      ghost var r := Gateway.Request(credential, Gateway.SelectedModel(storedModel), q, SearchOptions(store.host));
      StartCall(q, SearchOptions(store.host), HotelFacts(q));
      if r.Failure? {
        AppendedChain(old(store.messages), searching, store.messages, Gullie, [Render(store.host, SearchingCard, [])],
                      FailurePosts(store.host, HotelFacts(q), r.error), store.activeThreadId);
        TrackedPosts(searching, store.messages, Gullie, FailurePosts(store.host, HotelFacts(q), r.error), threads,
                     store.threads, store.activeThreadId, store.now, store.host.stripHtml);
      } else {
        TrackedNothing(searching, threads, store.activeThreadId, store.now, store.host.stripHtml);
      }
      TrackedChain(old(store.messages), searching, store.messages, old(store.threads), threads, store.threads,
                   store.activeThreadId, store.now, store.host.stripHtml);
      KeepsDistinct(old(store.threads), store.threads);
    }

    // -------------------------------------------------------------------
    // dispatchIntent
    // -------------------------------------------------------------------

    /**
     * The routing step: an intent the table gives a service other than
     * "general" gets that service's thread (created on first use) and makes it
     * active; any other intent stays on the active thread. The result is the
     * thread the dispatch's replies and follow-ups are addressed to.
     */
    method Route(i: string) returns (target: Id)
      requires Valid()
      modifies store
      ensures Valid()
      ensures target == store.activeThreadId
      ensures var service := ServiceFromIntent(i);
        && (service.Some? && service.value != "general" ==> RoutedTo(service.value, old(store.threads), old(store.timers)))
        && (!(service.Some? && service.value != "general") ==>
              target == old(store.activeThreadId) && store.threads == old(store.threads)
              && store.timers == old(store.timers))
      ensures QueuedFor(old(store.timers), store.timers, target)
      ensures OthersKept(old(store.threads), store.threads, target)
      ensures store.messages == old(store.messages) && store.steps == old(store.steps) && store.plan == old(store.plan)
      ensures store.now == old(store.now)
    {
      var service := ServiceFromIntent(i);
      if service.Some? && service.value != "general" {
        target := RouteTo(service.value);
      } else {
        target := store.activeThreadId;
        assert store.threads[..|store.threads|] == store.threads;
      }
    }

    /**
     * The active thread is the service's thread: the one it had, with the
     * thread list otherwise as it was, or a new one appended for it.
     */
    ghost predicate RoutedTo(service: string, before: seq<Thread>, timersBefore: seq<Timer>)
      reads this, store
    {
      Routed(service, before, timersBefore, store.threads, store.timers, store.activeThreadId)
    }

    /** `gullieSay(text, threadId)` as the branches see it: one message appended, the threads otherwise as they were. */
    method Reply(text: string, threadId: Option<Id>) returns (m: Message)
      requires Valid()
      modifies store
      ensures Valid()
      ensures m.id == Issued("m", old(store.nextId)) && store.nextId == old(store.nextId) + 1
      ensures store.messages == old(store.messages) + [m]
      ensures Appended(old(store.messages), store.messages, Gullie, [text], Addressee(threadId, store.activeThreadId))
      ensures store.timers == old(store.timers) && store.steps == old(store.steps) && store.plan == old(store.plan)
      ensures store.threads == TouchedBy(old(store.threads), Addressee(threadId, store.activeThreadId), [text],
                                         store.activeThreadId, store.now, store.host.stripHtml)
      ensures threadId.None? ==> store.Followed(old(store.messages), old(store.threads))
      ensures store.activeThreadId == old(store.activeThreadId) && store.now == old(store.now)
    {
      m := store.GullieSay(text, threadId);
      TouchedByOne(old(store.threads), m.threadId, text, store.activeThreadId, store.now, store.host.stripHtml);
      KeepsDistinct(old(store.threads), store.threads);
      if threadId.None? {
        TrackedPosts(old(store.messages), store.messages, Gullie, [text],
                     old(store.threads), store.threads, store.activeThreadId, store.now, store.host.stripHtml);
      }
    }

    /** `getOrCreateServiceThread(service)`, seen from the routing step: which thread, and what was queued. */
    method OpenThread(service: string) returns (t: Thread)
      requires Valid()
      modifies store
      ensures store.Valid() && (DistinctServices(old(store.threads)) ==> DistinctServices(store.threads))
      ensures ServiceIndex(old(store.threads), service) >= 0 ==>
                t == old(store.threads)[ServiceIndex(old(store.threads), service)]
                && store.threads == old(store.threads) && store.timers == old(store.timers)
      ensures ServiceIndex(old(store.threads), service) < 0 ==>
                store.threads == old(store.threads) + [t]
                && store.timers == old(store.timers) + [Timer(store.now, StartWorkflow(service, t.id))]
      ensures ServiceIndex(store.threads, service) >= 0 && store.threads[ServiceIndex(store.threads, service)] == t
      ensures store.messages == old(store.messages) && store.steps == old(store.steps) && store.plan == old(store.plan)
      ensures store.now == old(store.now)
    {
      t := store.GetOrCreateServiceThread(service);
    }

    /** `getOrCreateServiceThread(service)` then `switchToThread` to it. */
    method RouteTo(service: string) returns (target: Id)
      requires Valid()
      modifies store
      ensures Valid()
      ensures target == store.activeThreadId
      ensures RoutedTo(service, old(store.threads), old(store.timers))
      ensures QueuedFor(old(store.timers), store.timers, target)
      ensures store.messages == old(store.messages) && store.steps == old(store.steps) && store.plan == old(store.plan)
      ensures store.now == old(store.now)
    {
      ghost var before, timersBefore := store.threads, store.timers;
      var t := OpenThread(service);
      ghost var created, timersCreated := store.threads, store.timers;
      assert DistinctIds(created);
      store.SwitchToThread(t.id);
      target := t.id;
      Switched(created, store.threads, t, service);
      RoutedKept(service, before, created, store.threads, t);
      RouteFacts(service, before, timersBefore, created, timersCreated, store.threads, t, store.now);
    }

    /**
     * A branch's effect on the store: the merge, the replies to the active
     * thread in order, and the follow-ups queued in order.
     */
    method ApplyEffect(e: Effect, target: Id)
      requires Valid() && FollowUpsTo(e.later, target)
      modifies store
      ensures Valid()
      ensures store.plan == Merged(old(store.plan), e.partial)
      ensures Appended(old(store.messages), store.messages, Gullie, e.texts, store.activeThreadId)
      ensures store.timers == old(store.timers) + Scheduled(e.later, store.now)
      ensures QueuedFor(old(store.timers), store.timers, target)
      ensures store.steps == old(store.steps)
      ensures store.threads == TouchedBy(old(store.threads), store.activeThreadId, e.texts, store.activeThreadId,
                                         store.now, store.host.stripHtml)
      ensures store.Followed(old(store.messages), old(store.threads))
      ensures store.activeThreadId == old(store.activeThreadId) && store.now == old(store.now)
    {
      if e.partial.Some? {
        store.UpdateRelocationPlan(e.partial.value);
      }
      PostAll(store, e.texts);
      KeepsDistinct(old(store.threads), store.threads);
      ScheduleAll(e.later, target);
    }

    /** The follow-ups' `setTimeout` calls, in order; nothing else changes. */
    method ScheduleAll(later: seq<Later>, target: Id)
      requires Valid() && FollowUpsTo(later, target)
      modifies store
      ensures Valid()
      ensures store.timers == old(store.timers) + Scheduled(later, store.now)
      ensures QueuedFor(old(store.timers), store.timers, target)
      ensures store.messages == old(store.messages) && store.plan == old(store.plan) && store.steps == old(store.steps)
      ensures store.threads == old(store.threads) && store.activeThreadId == old(store.activeThreadId)
      ensures store.now == old(store.now)
    {
      var k := 0;
      while k < |later|
        invariant 0 <= k <= |later|
        invariant Valid()
        invariant store.timers == old(store.timers) + Scheduled(later[..k], store.now)
        invariant store.messages == old(store.messages) && store.plan == old(store.plan) && store.steps == old(store.steps)
        invariant store.threads == old(store.threads) && store.activeThreadId == old(store.activeThreadId)
        invariant store.now == old(store.now)
      {
        store.SetTimeout(later[k].delay, later[k].action);
        ScheduledStep(later, k, store.now);
        k := k + 1;
      }
      assert later[..k] == later;
      ScheduledQueuedFor(old(store.timers), later, store.now, target);
    }

    /** `choose_hotel`: book through the mock, then add the payload's own summary when it names a hotel and a price. */
    method ChooseHotelBranch(p: Value)
      requires Valid()
      modifies store
      ensures Valid()
      ensures ChooseHotelDone(p, old(Snap()))
      ensures store.Followed(old(store.messages), old(store.threads))
      ensures PostedTo(old(store.messages), store.messages, store.activeThreadId)
      ensures store.plan == old(store.plan) && store.timers == old(store.timers) && SameThreads(old(store.threads), store.threads)
      ensures store.activeThreadId == old(store.activeThreadId) && store.now == old(store.now)
    {
      var id := Get(p, "id");
      if id.Str? {
        ChooseHotelById(id.s, p);
      } else {
        var _ := Reply(NoHotelText, None);
        KeepsDistinct(old(store.threads), store.threads);
      }
    }

    /** Without a string id the branch says it cannot tell which hotel; with one it chose it. */
    ghost predicate ChooseHotelDone(p: Value, w: Snapshot)
      reads this, store
    {
      && (!Get(p, "id").Str? ==>
            Appended(w.messages, store.messages, Gullie, [NoHotelText], store.activeThreadId) && store.steps == w.steps)
      && (Get(p, "id").Str? ==> ChoseHotel(Get(p, "id").s, p, w.steps, w.messages))
    }

    /**
     * After `choose_hotel` with a string id: the mock's booking runs first;
     * when the payload names a hotel and a numeric price, an empty message and
     * the payload's own in-progress summary, linked to it, follow it.
     */
    ghost predicate ChoseHotel(hotelId: string, p: Value, stepsBefore: seq<Step>, before: seq<Message>)
      reads this, store
    {
      var price := NumberOr0(store.host, Get(p, "price"));
      && (Truthy(Get(p, "name")) && price.Num? ==>
            && BookedThenSummary(BookingMock.BookingChoice(stepsBefore, hotelId), stepsBefore, store.steps,
                                 before, store.messages, store.activeThreadId)
            && var last := store.steps[|store.steps| - 1];
               && last.status == InProgress && last.ts == Some(store.now)
               && last.afterMessageId == Some(store.messages[|store.messages| - 1].id)
               && last.data == PayloadSummary(store.host, p, hotelId, price.n))
      && (!(Truthy(Get(p, "name")) && price.Num?) ==> Booked(hotelId, stepsBefore, before))
    }

    /** The mock's booking of `hotelId` and nothing else: see `BookingMock.ChooseHotel`. */
    ghost predicate Booked(hotelId: string, stepsBefore: seq<Step>, before: seq<Message>)
      reads this, store
    {
      BookedAs(BookingMock.BookingChoice(stepsBefore, hotelId), stepsBefore, store.steps, before, store.messages, store.activeThreadId)
    }

    /** `chooseHotel(id)` of the mock. */
    method Book(hotelId: string)
      requires Valid()
      modifies store
      ensures Valid()
      ensures Booked(hotelId, old(store.steps), old(store.messages))
      ensures store.Followed(old(store.messages), old(store.threads))
      ensures PostedTo(old(store.messages), store.messages, store.activeThreadId)
      ensures store.plan == old(store.plan) && store.timers == old(store.timers) && SameThreads(old(store.threads), store.threads)
      ensures store.activeThreadId == old(store.activeThreadId) && store.now == old(store.now)
    {
      ghost var choice := BookingMock.BookingChoice(store.steps, hotelId);
      BookingMock.ChooseHotel(store, hotelId);
      KeepsDistinct(old(store.threads), store.threads);
      if choice.Some? {
        TrackedPosts(old(store.messages), store.messages, Gullie, [BookingMock.ChoiceText], old(store.threads),
                     store.threads, store.activeThreadId, store.now, store.host.stripHtml);
      } else {
        TrackedNothing(store.messages, store.threads, store.activeThreadId, store.now, store.host.stripHtml);
      }
    }

    method ChooseHotelById(hotelId: string, p: Value)
      requires Valid()
      modifies store
      ensures Valid()
      ensures ChoseHotel(hotelId, p, old(store.steps), old(store.messages))
      ensures store.Followed(old(store.messages), old(store.threads))
      ensures PostedTo(old(store.messages), store.messages, store.activeThreadId)
      ensures store.plan == old(store.plan) && store.timers == old(store.timers) && SameThreads(old(store.threads), store.threads)
      ensures store.activeThreadId == old(store.activeThreadId) && store.now == old(store.now)
    {
      Book(hotelId);
      var price := NumberOr0(store.host, Get(p, "price"));
      if Truthy(Get(p, "name")) && price.Num? {
        ghost var steps, messages, threads := store.steps, store.messages, store.threads;
        PayloadSummaryStep(PayloadSummary(store.host, p, hotelId, price.n));
        ghost var choice := BookingMock.BookingChoice(old(store.steps), hotelId);
        assert BookedThenSummary(choice, old(store.steps), store.steps, old(store.messages), store.messages,
                                 store.activeThreadId) by {
          SummaryAfterBooking(choice, old(store.steps), steps, store.steps[|store.steps| - 1], old(store.messages),
                              messages, store.messages, store.activeThreadId);
        }
        assert PostedTo(old(store.messages), store.messages, store.activeThreadId) by {
          PostedToChain(old(store.messages), messages, store.messages, store.activeThreadId);
        }
        assert SameThreads(old(store.threads), store.threads) by {
          SameThreadsChain(old(store.threads), threads, store.threads);
        }
        assert store.Followed(old(store.messages), old(store.threads)) by {
          TrackedChain(old(store.messages), messages, store.messages, old(store.threads), threads, store.threads,
                       store.activeThreadId, store.now, store.host.stripHtml);
        }
      }
    }

    /** The summary the payload itself describes: an empty message, then an in-progress summary step linked to it. */
    method PayloadSummaryStep(data: StepData)
      requires Valid()
      modifies store
      ensures Valid()
      ensures |store.steps| > 0 && |store.messages| > 0
      ensures var last := store.steps[|store.steps| - 1];
        && last.status == InProgress && last.ts == Some(store.now)
        && last.afterMessageId == Some(store.messages[|store.messages| - 1].id) && last.data == data
        && store.messages[|store.messages| - 1].text == ""
      ensures Appended(old(store.messages), store.messages, Gullie, [""], store.activeThreadId)
      ensures store.Followed(old(store.messages), old(store.threads))
      ensures PostedTo(old(store.messages), store.messages, store.activeThreadId)
      ensures store.steps == old(store.steps) + [Step(Issued(KindName(KindOf(data)), old(store.nextId) + 1), None, InProgress,
                                                      Some(store.now), Some(Issued("m", old(store.nextId))), data)]
      ensures store.plan == old(store.plan) && store.timers == old(store.timers) && SameThreads(old(store.threads), store.threads)
      ensures store.activeThreadId == old(store.activeThreadId) && store.now == old(store.now)
    {
      var m := Reply("", None);
      var id := store.CreateStepId(KindOf(data));
      var step := Step(id, None, InProgress, Some(store.now), Some(m.id), data);
      UpsertFresh(store.steps, step, store.now);
      store.UpsertStep(step);
      KeepsDistinct(old(store.threads), store.threads);
    }

    /** Without a string id the branch says it cannot tell which hotel; with one the mock booked it. */
    ghost predicate SelectHotelDone(p: Value, w: Snapshot)
      reads this, store
    {
      && (!Get(p, "id").Str? ==>
            Appended(w.messages, store.messages, Gullie, [NoHotelText], store.activeThreadId) && store.steps == w.steps)
      && (Get(p, "id").Str? ==> Booked(Get(p, "id").s, w.steps, w.messages))
    }

    /** `select_hotel` / `select`: book through the mock when the id is a string. */
    method SelectHotelBranch(p: Value)
      requires Valid()
      modifies store
      ensures Valid()
      ensures SelectHotelDone(p, old(Snap()))
      ensures store.Followed(old(store.messages), old(store.threads))
      ensures PostedTo(old(store.messages), store.messages, store.activeThreadId)
      ensures store.plan == old(store.plan) && store.timers == old(store.timers) && SameThreads(old(store.threads), store.threads)
      ensures store.activeThreadId == old(store.activeThreadId) && store.now == old(store.now)
    {
      var id := Get(p, "id");
      if id.Str? {
        Book(id.s);
      } else {
        var _ := Reply(NoHotelText, None);
        KeepsDistinct(old(store.threads), store.threads);
      }
    }

    /** A string url was opened with nothing posted; otherwise nothing was opened and the demo notice was posted. */
    ghost predicate UrlOpened(p: Value, w: Snapshot)
      reads this, store
    {
      && (Get(p, "url").Str? ==> openedUrls == w.openedUrls + [Get(p, "url").s] && store.messages == w.messages)
      && (!Get(p, "url").Str? ==>
            openedUrls == w.openedUrls
            && Appended(w.messages, store.messages, Gullie, [NoUrlText], store.activeThreadId))
    }

    /** `open_url`: a string url is opened; anything else gets the demo notice. */
    method OpenUrlBranch(p: Value)
      requires Valid()
      modifies this, store
      ensures Valid()
      ensures UrlOpened(p, old(Snap()))
      ensures store.Followed(old(store.messages), old(store.threads))
      ensures cache == old(cache) && calls == old(calls)
      ensures store.steps == old(store.steps) && store.plan == old(store.plan) && store.timers == old(store.timers)
      ensures SameThreads(old(store.threads), store.threads)
      ensures store.activeThreadId == old(store.activeThreadId) && store.now == old(store.now)
    {
      var url := Get(p, "url");
      if url.Str? {
        openedUrls := openedUrls + [url.s];
        TrackedNothing(store.messages, store.threads, store.activeThreadId, store.now, store.host.stripHtml);
      } else {
        var _ := Reply(NoUrlText, None);
        KeepsDistinct(old(store.threads), store.threads);
      }
    }

    /**
     * A positive numeric amount was paid: the payment line and a confirmation
     * step for the hotel it pays; otherwise the branch asked for an amount.
     */
    ghost predicate Paid(p: Value, code: string, w: Snapshot)
      reads this, store
    {
      var amount := NumberOr0(store.host, Get(p, "amount"));
      && (amount.Num? && amount.n > 0.0 ==>
            Appended(w.messages, store.messages, Gullie, [BookingMock.PaymentText(code)], store.activeThreadId)
            && |store.steps| == |w.steps| + 1
            && store.steps[|w.steps|].data == ConfirmationData("REF-" + code, BookingMock.PaidHotel(w.steps, amount.n)))
      && (!(amount.Num? && amount.n > 0.0) ==>
            Appended(w.messages, store.messages, Gullie, [NoAmountText], store.activeThreadId) && store.steps == w.steps)
    }

    /** `pay_now`: pay only a positive numeric amount; otherwise ask for one. */
    method PayBranch(p: Value, code: string)
      requires Valid() && BookingMock.RefCode(code)
      modifies store
      ensures Valid()
      ensures Paid(p, code, old(Snap()))
      ensures store.Followed(old(store.messages), old(store.threads))
      ensures store.plan == old(store.plan) && store.timers == old(store.timers) && SameThreads(old(store.threads), store.threads)
      ensures store.activeThreadId == old(store.activeThreadId) && store.now == old(store.now)
    {
      var amount := NumberOr0(store.host, Get(p, "amount"));
      if amount.Num? && amount.n > 0.0 {
        BookingMock.PayNow(store, amount.n, code);
        TrackedPosts(old(store.messages), store.messages, Gullie, [BookingMock.PaymentText(code)], old(store.threads),
                     store.threads, store.activeThreadId, store.now, store.host.stripHtml);
      } else {
        var _ := Reply(NoAmountText, None);
      }
      KeepsDistinct(old(store.threads), store.threads);
    }

    /** `service_workflow`: immigration runs the canned workflow; any other service gets its one reply. */
    method ServiceWorkflowBranch(p: Value)
      requires Valid()
      modifies store
      ensures Valid()
      ensures Appended(old(store.messages), store.messages, Gullie, ServiceWorkflowPosts(store.host, Get(p, "service")),
                       store.activeThreadId)
      ensures store.steps == old(store.steps) && store.plan == old(store.plan) && store.timers == old(store.timers)
      ensures store.threads == TouchedBy(old(store.threads), store.activeThreadId, ServiceWorkflowPosts(store.host, Get(p, "service")),
                                         store.activeThreadId, store.now, store.host.stripHtml)
      ensures store.Followed(old(store.messages), old(store.threads))
      ensures store.activeThreadId == old(store.activeThreadId) && store.now == old(store.now)
    {
      var service := Get(p, "service");
      if service == Str("immigration") {
        HandleImmigrationWorkflow(store);
      } else {
        var _ := Reply(ServiceWorkflowReply(store.host, service), None);
      }
      KeepsDistinct(old(store.threads), store.threads);
    }

    /**
     * The branches run as methods. None of them touches the plan, the timer
     * queue or the thread list, and every message they post goes to the
     * active thread.
     */
    method RunActive(b: Branch, p: Value, code: string)
      requires Valid() && b.Active() && BookingMock.RefCode(code)
      modifies this, store
      ensures Valid()
      ensures Acted(b, p, code, old(Snap())) && cache == old(cache)
      ensures store.Followed(old(store.messages), old(store.threads))
      ensures PostedTo(old(store.messages), store.messages, store.activeThreadId)
      ensures store.plan == old(store.plan) && store.timers == old(store.timers)
      ensures SameThreads(old(store.threads), store.threads)
      ensures store.activeThreadId == old(store.activeThreadId) && store.now == old(store.now)
    {
      if b.OnMovingQuotes? || b.OnInventory? || b.OnAllServices? || b.OnServiceWorkflow? {
        RunCanned(b, p);
      } else {
        RunBooking(b, p, code);
      }
    }

    /** The branches that search, book, open pages or pay. */
    method RunBooking(b: Branch, p: Value, code: string)
      requires Valid() && BookingMock.RefCode(code)
      requires b.OnSearchHotels? || b.OnChooseHotel? || b.OnSelectHotel? || b.OnOpenUrl? || b.OnPayNow?
      modifies this, store
      ensures Valid()
      ensures Acted(b, p, code, old(Snap())) && cache == old(cache)
      ensures store.Followed(old(store.messages), old(store.threads))
      ensures PostedTo(old(store.messages), store.messages, store.activeThreadId)
      ensures store.plan == old(store.plan) && store.timers == old(store.timers)
      ensures SameThreads(old(store.threads), store.threads)
      ensures store.activeThreadId == old(store.activeThreadId) && store.now == old(store.now)
    {
      match b
      case OnSearchHotels => HandleHotelSearch(p);
      case OnChooseHotel => ChooseHotelBranch(p);
      case OnSelectHotel => SelectHotelBranch(p);
      case OnOpenUrl => OpenUrlBranch(p);
      case OnPayNow => PayBranch(p, code);
    }

    /** The branches that run a canned workflow. */
    method RunCanned(b: Branch, p: Value)
      requires Valid()
      requires b.OnMovingQuotes? || b.OnInventory? || b.OnAllServices? || b.OnServiceWorkflow?
      modifies store
      ensures Valid()
      ensures Acted(b, p, "", old(Snap()))
      ensures store.Followed(old(store.messages), old(store.threads))
      ensures PostedTo(old(store.messages), store.messages, store.activeThreadId)
      ensures store.plan == old(store.plan) && store.timers == old(store.timers)
      ensures SameThreads(old(store.threads), store.threads)
      ensures store.activeThreadId == old(store.activeThreadId) && store.now == old(store.now)
    {
      match b {
        case OnMovingQuotes => HandleMovingQuotes(store);
        case OnInventory => HandleInventoryWorkflow(store);
        case OnAllServices => HandleAllServicesOverview(store);
        case OnServiceWorkflow => ServiceWorkflowBranch(p);
      }
      KeepsDistinct(old(store.threads), store.threads);
    }

    /**
     * What each method branch did, from the state `w` it started in: the
     * outcome its own method states, and the calls, opened pages and steps
     * it does not touch left as they were.
     */
    ghost predicate Acted(b: Branch, p: Value, code: string, w: Snapshot)
      reads this, store
    {
      var host := store.host;
      match b
      case OnSearchHotels => HotelSearchDone(p, w) && store.steps == w.steps && openedUrls == w.openedUrls
      case OnChooseHotel => ChooseHotelDone(p, w) && calls == w.calls && openedUrls == w.openedUrls
      case OnSelectHotel => SelectHotelDone(p, w) && calls == w.calls && openedUrls == w.openedUrls
      case OnOpenUrl => UrlOpened(p, w) && store.steps == w.steps && calls == w.calls
      case OnPayNow => Paid(p, code, w) && calls == w.calls && openedUrls == w.openedUrls
      case OnMovingQuotes =>
        Appended(w.messages, store.messages, Gullie, [Render(host, MovingQuotesCard, [])], store.activeThreadId)
        && store.steps == w.steps && calls == w.calls && openedUrls == w.openedUrls
      case OnInventory =>
        Appended(w.messages, store.messages, Gullie, [Render(host, InventoryCard, [])], store.activeThreadId)
        && store.steps == w.steps && calls == w.calls && openedUrls == w.openedUrls
      case OnAllServices =>
        Appended(w.messages, store.messages, Gullie, ["", Render(host, AllServicesCard, [])], store.activeThreadId)
        && store.steps == w.steps && calls == w.calls && openedUrls == w.openedUrls
      case OnServiceWorkflow =>
        Appended(w.messages, store.messages, Gullie, ServiceWorkflowPosts(host, Get(p, "service")), store.activeThreadId)
        && store.steps == w.steps && calls == w.calls && openedUrls == w.openedUrls
      case _ => true
    }

    /**
     * `dispatchIntent(intent, rawPayload)`, with the page's date input as
     * `picker` and the confirmation code `payNow` would draw as `code`.
     * Routing happens first, so the reply, every message the branch posts and
     * every follow-up it queues go to the routed thread (the partner hand-off
     * excepted, which has no thread); the profile capture is merged before the
     * branch runs; the branches that are not methods are exactly their effect.
     */
    method DispatchIntent(intent: string, rawPayload: Option<string>, picker: Option<string>, code: string)
      requires Valid() && BookingMock.RefCode(code)
      modifies this, store
      ensures Valid()
      ensures var service := ServiceFromIntent(Normalize(intent));
        && (service.Some? && service.value != "general" ==>
              ServiceIndex(store.threads, service.value) >= 0
              && store.threads[ServiceIndex(store.threads, service.value)].id == store.activeThreadId)
        && (!(service.Some? && service.value != "general") ==> store.activeThreadId == old(store.activeThreadId))
      ensures var service := ServiceFromIntent(Normalize(intent));
        service.Some? && service.value != "general" ==>
          ThreadIndex(store.threads, store.activeThreadId) == ServiceIndex(store.threads, service.value)
          && store.threads[ServiceIndex(store.threads, service.value)].unreadCount == 0
      ensures ThreadsAfter(old(store.threads), store.threads, store.activeThreadId, old(store.messages), store.messages,
                           store.now, store.host.stripHtml)
      ensures PostedTo(old(store.messages), store.messages, store.activeThreadId)
      ensures QueuedFor(old(store.timers), store.timers, store.activeThreadId)
      ensures var i := Normalize(intent); var p := Decoded(store.host, rawPayload);
        Ran(Classify(i), intent, p, Merged(old(store.plan), Captured(store.host, i, p, old(store.plan))), picker,
            code, old(Snap()))
      ensures store.now == old(store.now)
    {
      ghost var w := Snap();
      var p := Decoded(store.host, rawPayload);
      var i := Normalize(intent);
      var target := Route(i);
      ghost var routed := store.timers;
      ghost var threads := store.threads;
      assert Snap() == w;
      CaptureAndRun(i, intent, p, target, picker, code, old(store.threads));
      QueuedForChain(old(store.timers), routed, store.timers, target);
      var service := ServiceFromIntent(i);
      if service.Some? && service.value != "general" {
        SameThreadsLookups(threads, store.threads, target, service.value);
      }
    }

    /** After routing: the profile capture is merged, then the branch runs. */
    method CaptureAndRun(i: string, raw: string, p: Value, target: Id, picker: Option<string>, code: string,
                         ghost unrouted: seq<Thread>)
      requires Valid() && target == store.activeThreadId && BookingMock.RefCode(code)
      requires OthersKept(unrouted, store.threads, target)
      modifies this, store
      ensures Valid()
      ensures ThreadsAfter(unrouted, store.threads, target, old(store.messages), store.messages, store.now,
                           store.host.stripHtml)
      ensures var k := ThreadIndex(store.threads, target);
        k == ThreadIndex(old(store.threads), target) && (k >= 0 ==> store.threads[k].unreadCount == old(store.threads)[k].unreadCount)
      ensures Ran(Classify(i), raw, p, Merged(old(store.plan), Captured(store.host, i, p, old(store.plan))), picker,
                  code, old(Snap()))
      ensures PostedTo(old(store.messages), store.messages, target)
      ensures store.Followed(old(store.messages), old(store.threads))
      ensures QueuedFor(old(store.timers), store.timers, target)
      ensures SameThreads(old(store.threads), store.threads)
      ensures store.activeThreadId == old(store.activeThreadId) && store.now == old(store.now)
    {
      Capture(i, p);
      assert Snap() == old(Snap());
      RunBranch(Classify(i), raw, p, target, picker, code);
      PostedAfterRouting(unrouted, old(store.threads), store.threads, old(store.messages), store.messages, target,
                         store.now, store.host.stripHtml);
    }

    /** `captureProfileData(i, payload)`. */
    method Capture(i: string, p: Value)
      requires Valid()
      modifies store
      ensures Valid()
      ensures store.plan == Merged(old(store.plan), Captured(store.host, i, p, old(store.plan)))
      ensures store.messages == old(store.messages) && store.steps == old(store.steps) && store.threads == old(store.threads)
      ensures store.activeThreadId == old(store.activeThreadId) && store.now == old(store.now) && store.timers == old(store.timers)
    {
      var captured := Captured(store.host, i, p, store.plan);
      if captured.Some? {
        store.UpdateRelocationPlan(captured.value);
      }
    }

    /**
     * The branch ran on a plan that stood at `plan`, from the state `w`: a
     * method branch left the plan alone and did what `Acted` says; any other
     * branch is exactly its effect, with its follow-ups queued last.
     */
    ghost predicate Ran(b: Branch, raw: string, p: Value, plan: Option<Plan>, picker: Option<string>, code: string,
                        w: Snapshot)
      reads this, store
    {
      && (b.Active() ==> store.plan == plan && Acted(b, p, code, w))
      && (!b.Active() ==> Reacted(b, raw, p, plan, picker, w))
    }

    /** A branch that is not a method is exactly its effect: merged, posted, and its follow-ups queued last. */
    ghost predicate Reacted(b: Branch, raw: string, p: Value, plan: Option<Plan>, picker: Option<string>, w: Snapshot)
      requires !b.Active()
      reads this, store
    {
      var e := Reaction(store.host, b, raw, p, plan, store.activeThreadId, picker);
      && store.plan == Merged(plan, e.partial)
      && Appended(w.messages, store.messages, Gullie, e.texts, store.activeThreadId)
      && |e.later| <= |store.timers|
      && store.timers[|store.timers| - |e.later|..] == Scheduled(e.later, store.now)
    }

    /** The `switch`, with `target` the routed thread. */
    method RunBranch(b: Branch, raw: string, p: Value, target: Id, picker: Option<string>, code: string)
      requires Valid() && target == store.activeThreadId && BookingMock.RefCode(code)
      modifies this, store
      ensures Valid()
      ensures Ran(b, raw, p, old(store.plan), picker, code, old(Snap()))
      ensures store.Followed(old(store.messages), old(store.threads))
      ensures b.Active() ==> store.timers == old(store.timers)
      ensures PostedTo(old(store.messages), store.messages, target)
      ensures QueuedFor(old(store.timers), store.timers, target)
      ensures SameThreads(old(store.threads), store.threads)
      ensures store.activeThreadId == old(store.activeThreadId) && store.now == old(store.now)
    {
      if b.Active() {
        RunActive(b, p, code);
      } else {
        var e := Reaction(store.host, b, raw, p, store.plan, target, picker);
        ApplyEffect(e, target);
        assert store.timers[|store.timers| - |e.later|..] == Scheduled(e.later, store.now);
      }
    }

    // -------------------------------------------------------------------
    // The timer event
    // -------------------------------------------------------------------

    /**
     * The event loop runs the next timer: it leaves the queue, the clock
     * moves to its due time, and its callback runs. Everything the callback
     * posts, asks for or queues is addressed to the thread it captured when
     * it was scheduled, whichever thread is active now.
     */
    method FireTimer(k: nat)
      requires Valid() && Next(store.timers, k)
      modifies this, store
      ensures Valid()
      ensures var d := old(store.timers)[k].action;
        && store.now == (if old(store.timers)[k].due > old(store.now) then old(store.timers)[k].due else old(store.now))
        && (!d.AccommodationContent? && !d.Continuation? ==>
              Appended(old(store.messages), store.messages, Gullie, DeferredPosts(store.host, old(store.plan), d),
                       Addressee(Target(d), store.activeThreadId))
              && store.threads == TouchedBy(old(store.threads), Addressee(Target(d), store.activeThreadId),
                                            DeferredPosts(store.host, old(store.plan), d), store.activeThreadId, store.now,
                                            store.host.stripHtml)
              && calls == old(calls))
        && (d.AccommodationContent? || d.Continuation? ==>
              var r := Gateway.Request(credential, Gateway.SelectedModel(storedModel),
                                       DeferredInput(store.host, old(store.threads), d),
                                       DeferredOptions(store.host, old(store.threads), d.thread));
              && (r.Success? ==> calls == old(calls) + [Call(r.value, DeferredPurpose(d))]
                                 && store.messages == old(store.messages) && store.threads == old(store.threads))
              && (r.Failure? ==>
                    calls == old(calls)
                    && Appended(old(store.messages), store.messages, Gullie, FailurePosts(store.host, DeferredPurpose(d), r.error),
                                Addressee(Target(d), store.activeThreadId))
                    && store.threads == TouchedBy(old(store.threads), Addressee(Target(d), store.activeThreadId),
                                                  FailurePosts(store.host, DeferredPurpose(d), r.error),
                                                  store.activeThreadId, store.now, store.host.stripHtml)))
        && store.timers == old(store.timers)[..k] + old(store.timers)[k + 1..] + QueuedBy(store.host, d, store.now)
        && (Target(d).Some? ==> QueuedFor(store.timers[..|old(store.timers)| - 1], store.timers, Target(d).value))
      ensures store.plan == old(store.plan) && store.steps == old(store.steps)
      ensures SameThreads(old(store.threads), store.threads) && store.activeThreadId == old(store.activeThreadId)
      ensures cache == old(cache) && openedUrls == old(openedUrls)
    {
      var d := store.timers[k].action;
      store.TakeTimer(k);
      RunDeferred(d);
    }

    /** A callback, run with the store as it is when its timer fires. */
    method RunDeferred(d: Deferred)
      requires Valid()
      modifies this, store
      ensures Valid()
      ensures !d.AccommodationContent? && !d.Continuation? ==>
                Appended(old(store.messages), store.messages, Gullie, DeferredPosts(store.host, old(store.plan), d),
                         Addressee(Target(d), store.activeThreadId))
                && store.threads == TouchedBy(old(store.threads), Addressee(Target(d), store.activeThreadId),
                                              DeferredPosts(store.host, old(store.plan), d), store.activeThreadId, store.now,
                                              store.host.stripHtml)
                && calls == old(calls)
      ensures d.AccommodationContent? || d.Continuation? ==>
                var r := Gateway.Request(credential, Gateway.SelectedModel(storedModel),
                                         DeferredInput(store.host, old(store.threads), d),
                                         DeferredOptions(store.host, old(store.threads), d.thread));
                && (r.Success? ==> calls == old(calls) + [Call(r.value, DeferredPurpose(d))]
                                   && store.messages == old(store.messages) && store.threads == old(store.threads))
                && (r.Failure? ==>
                      calls == old(calls)
                      && Appended(old(store.messages), store.messages, Gullie, FailurePosts(store.host, DeferredPurpose(d), r.error),
                                  Addressee(Target(d), store.activeThreadId))
                      && store.threads == TouchedBy(old(store.threads), Addressee(Target(d), store.activeThreadId),
                                                    FailurePosts(store.host, DeferredPurpose(d), r.error),
                                                    store.activeThreadId, store.now, store.host.stripHtml))
      ensures store.timers == old(store.timers) + QueuedBy(store.host, d, store.now)
      ensures store.plan == old(store.plan) && store.steps == old(store.steps)
      ensures SameThreads(old(store.threads), store.threads) && store.activeThreadId == old(store.activeThreadId)
      ensures store.now == old(store.now) && cache == old(cache) && openedUrls == old(openedUrls)
    {
      if d.AccommodationContent? || d.Continuation? {
        StartCall(DeferredInput(store.host, store.threads, d), DeferredOptions(store.host, store.threads, d.thread), DeferredPurpose(d));
      } else {
        PostDeferred(d);
      }
    }

    /** A callback that posts right away, to the thread it captured (the partner hand-off to the active one). */
    method PostDeferred(d: Deferred)
      requires Valid() && !d.AccommodationContent? && !d.Continuation?
      modifies store
      ensures Valid()
      ensures Appended(old(store.messages), store.messages, Gullie, DeferredPosts(store.host, old(store.plan), d),
                       Addressee(Target(d), store.activeThreadId))
      ensures store.timers == old(store.timers) + QueuedBy(store.host, d, store.now)
      ensures store.plan == old(store.plan) && store.steps == old(store.steps)
      ensures store.threads == TouchedBy(old(store.threads), Addressee(Target(d), store.activeThreadId),
                                         DeferredPosts(store.host, old(store.plan), d), store.activeThreadId, store.now,
                                         store.host.stripHtml)
      ensures store.activeThreadId == old(store.activeThreadId) && store.now == old(store.now)
    {
      match d
      case StartWorkflow(service, t) =>
        ServiceWorkflows.StartServiceWorkflow(store, service, t);
        KeepsDistinct(old(store.threads), store.threads);
      case AskShippingType(t, size) =>
        ServiceWorkflows.AskShippingTypeQuestion(store, t, size);
        KeepsDistinct(old(store.threads), store.threads);
      case MoveTypeFollowUp(_, _) | Post(_, _) | DogDetails(_) | PartnerConnection =>
        PostText(d);
    }

    /** The callbacks that post one text (or, for the move-type follow-up, at most one) and queue nothing. */
    method PostText(d: Deferred)
      requires Valid() && (d.MoveTypeFollowUp? || d.Post? || d.DogDetails? || d.PartnerConnection?)
      modifies store
      ensures Valid()
      ensures Appended(old(store.messages), store.messages, Gullie, DeferredPosts(store.host, old(store.plan), d),
                       Addressee(Target(d), store.activeThreadId))
      ensures store.timers == old(store.timers) && store.plan == old(store.plan) && store.steps == old(store.steps)
      ensures store.threads == TouchedBy(old(store.threads), Addressee(Target(d), store.activeThreadId),
                                         DeferredPosts(store.host, old(store.plan), d), store.activeThreadId, store.now,
                                         store.host.stripHtml)
      ensures store.activeThreadId == old(store.activeThreadId) && store.now == old(store.now)
    {
      var texts := DeferredPosts(store.host, store.plan, d);
      if texts != [] {
        if d.PartnerConnection? {
          var _ := Reply(texts[0], None);
        } else {
          ServiceWorkflows.Say(store, texts[0], d.thread);
        }
        assert texts == [texts[0]];
      }
      KeepsDistinct(old(store.threads), store.threads);
    }
  }
}
