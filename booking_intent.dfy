/**
 * The dispatcher of the single-stream booking demo: `dispatchIntent` with its
 * six branches and the default, and the hotel search, which shows a loading
 * card as a timeline step and later overwrites that same step, by reusing its
 * id, with the results card or the failure card.
 *
 * The mock booking API this variant calls (`chooseHotel`, `payNow`) is not
 * part of this model: its calls are recorded in order, not run.
 */
module BookingIntent {
  import opened Wrappers
  import opened Js
  import opened Environment
  import opened Timeline
  import opened BookingStore
  import Gateway
  import IntentTables
  import IntentRules
  import Intent

  /** A call into the mock booking API, recorded in the order it was made. */
  datatype MockCall = ChooseHotelCall(id: string) | PayNowCall(amount: real)

  // ---------------------------------------------------------------------
  // The switch
  // ---------------------------------------------------------------------

  datatype Branch = OnSearch | OnChooseHotel | OnSelect | OnOpenUrl | OnPayNow | OnCalendar | OnUnknown

  /** The case labels; every other normalized name takes `default`. */
  const Switch: map<string, Branch> := map[
    "search_hotels" := OnSearch, "start_search" := OnSearch, "start_hotel_search" := OnSearch,
    "choose_hotel" := OnChooseHotel,
    "select_hotel" := OnSelect, "select" := OnSelect,
    "open_url" := OnOpenUrl,
    "pay_now" := OnPayNow,
    "open_calendar" := OnCalendar
  ]

  function Classify(i: string): (b: Branch)
    ensures b == OnUnknown <==> i !in Switch
  {
    if i in Switch then Switch[i] else OnUnknown
  }

  /** The branch of the threaded dispatcher that handles the same labels. */
  function Threaded(b: Branch): IntentTables.Branch {
    match b
    case OnSearch => IntentTables.OnSearchHotels
    case OnChooseHotel => IntentTables.OnChooseHotel
    case OnSelect => IntentTables.OnSelectHotel
    case OnOpenUrl => IntentTables.OnOpenUrl
    case OnPayNow => IntentTables.OnPayNow
    case OnCalendar => IntentTables.OnCalendar
    case OnUnknown => IntentTables.OnOther
  }

  /** Every label of this switch takes the same branch in the threaded dispatcher. */
  lemma SwitchKeptByThreadedDispatcher(i: string)
    requires i in Switch
    ensures IntentTables.Classify(i) == Threaded(Switch[i])
  {
    if i == "search_hotels" || i == "start_search" || i == "start_hotel_search" {
      assert IntentTables.Switch[i] == IntentTables.OnSearchHotels;
    } else if i == "choose_hotel" {
      assert IntentTables.Switch[i] == IntentTables.OnChooseHotel;
    } else if i == "select_hotel" || i == "select" {
      assert IntentTables.Switch[i] == IntentTables.OnSelectHotel;
    } else if i == "open_url" {
      assert IntentTables.Switch[i] == IntentTables.OnOpenUrl;
    } else if i == "pay_now" {
      assert IntentTables.Switch[i] == IntentTables.OnPayNow;
    } else {
      assert i == "open_calendar";
      assert IntentTables.Switch[i] == IntentTables.OnCalendar;
    }
  }

  /** `(demo) Calendar would open here${date ? ` with ${date}` : ''}.` */
  function CalendarText(h: Host, date: Value): (r: string)
    ensures StartsWith(r, "(demo) Calendar would open here") && EndsWith(r, ".")
    ensures Truthy(date) ==> Contains(r, " with " + Text(h, date))
    ensures !Truthy(date) ==> r == "(demo) Calendar would open here."
  {
    var with := if Truthy(date) then " with " + Text(h, date) else "";
    ContainsMiddle("(demo) Calendar would open here", with, ".");
    "(demo) Calendar would open here" + with + "."
  }

  /** `(demo) Unknown intent: ${intent}`, with the intent as it was received. */
  function UnknownText(intent: string): (r: string)
    ensures StartsWith(r, "(demo) Unknown intent: ") && EndsWith(r, intent)
  {
    "(demo) Unknown intent: " + intent
  }

  // ---------------------------------------------------------------------
  // The hotel search's cards and calls
  // ---------------------------------------------------------------------

  /** The two stages of a search: the web search for facts, then the rendering of the card. */
  datatype Stage = Facts | Card

  /** A gateway call in flight: what was sent, its stage, the search's query, and the loading step and message it answers. */
  datatype Call = Call(body: Gateway.Body, stage: Stage, query: Value, placeholder: Id, after: Id)

  function LoadingHtml(h: Host): string {
    Render(h, LoadingCard, [])
  }

  /** The red card shown in place of the results: it carries `String(e)`. */
  function FailedHtml(h: Host, f: Gateway.Failure): (r: string)
    ensures Contains(r, Gateway.ErrorText(f))
  {
    RenderIncludes(h, FailedCard, [Gateway.ErrorText(f)], 0);
    Render(h, FailedCard, [Gateway.ErrorText(f)])
  }

  /** The in-progress HTML card with `id`, linked to message `after`. */
  function CardStep(id: Id, after: Id, now: int, html: string): (s: Step)
    ensures s.id == id && s.Kind() == HtmlCard && s.status == InProgress
  {
    Step(id, None, InProgress, Some(now), Some(after), HtmlCardData(html, None))
  }

  /** The second stage's options: the booking demo's system instructions only. */
  function CardOptions(h: Host): Gateway.Options {
    Gateway.Options(Some(Render(h, BookingInstructions, [])), None, None)
  }

  /** Every call in flight still has its loading step on the timeline. */
  predicate Placed(calls: seq<Call>, steps: seq<Step>) {
    forall k :: 0 <= k < |calls| ==> IndexOf(steps, calls[k].placeholder) >= 0
  }

  lemma UpsertKeepsPlaced(calls: seq<Call>, steps: seq<Step>, s: Step, now: int)
    requires Placed(calls, steps)
    ensures Placed(calls, Upserted(steps, s, now))
  {
    forall k | 0 <= k < |calls|
      ensures IndexOf(Upserted(steps, s, now), calls[k].placeholder) >= 0
    {
      UpsertKeepsIndex(steps, s, now, calls[k].placeholder);
    }
  }

  /** A stamped step with a fresh id is appended as it is, and every call keeps its loading step. */
  lemma AppendFresh(calls: seq<Call>, steps: seq<Step>, s: Step, now: int)
    requires forall j :: 0 <= j < |steps| ==> steps[j].id != s.id
    requires s.ts.Some? && Placed(calls, steps)
    ensures Upserted(steps, s, now) == steps + [s]
    ensures Placed(calls, steps + [s])
  {
    UpsertFresh(steps, s, now);
    UpsertKeepsPlaced(calls, steps, s, now);
  }

  lemma PlacedTail(calls: seq<Call>, steps: seq<Step>, k: nat)
    requires Placed(calls, steps) && k < |calls|
    ensures Placed(calls[..k] + calls[k + 1..], steps)
  {
    var rest := calls[..k] + calls[k + 1..];
    forall j | 0 <= j < |rest|
      ensures IndexOf(steps, rest[j].placeholder) >= 0
    {
      if j < k {
        assert rest[j] == calls[j];
      } else {
        assert rest[j] == calls[j + 1];
      }
    }
  }

  /**
   * `before` becomes `after` by overwriting, in place, the step with `id`:
   * same length, that entry now holds `data`, every other entry as it was.
   */
  predicate Replaced(before: seq<Step>, after: seq<Step>, id: Id, data: StepData) {
    var k := IndexOf(before, id);
    && k >= 0 && |after| == |before|
    && after[k].id == id && after[k].data == data
    && forall j :: 0 <= j < |before| && j != k ==> after[j] == before[j]
  }

  lemma UpsertReplaces(steps: seq<Step>, s: Step, now: int)
    requires IndexOf(steps, s.id) >= 0
    ensures Replaced(steps, Upserted(steps, s, now), s.id, s.data)
  {
  }

  /** The freshly appended loading step is the one an upsert with its id overwrites. */
  lemma {:induction false} ReplaceLast(steps: seq<Step>, s: Step, t: Step, now: int)
    requires forall j :: 0 <= j < |steps| ==> steps[j].id != s.id
    requires t.id == s.id
    ensures IndexOf(steps + [s], s.id) == |steps|
    ensures Upserted(steps + [s], t, now) == steps + [Merge(s, t)]
  {
    var all := steps + [s];
    assert forall j :: 0 <= j < |steps| ==> all[j].id != s.id;
    IndexOfUnique(all, s.id, |steps|);
  }

  /** What the dispatcher and its store hold between events. */
  datatype Snapshot = Snapshot(
    messages: seq<Message>, steps: seq<Step>, nextId: nat, now: int,
    calls: seq<Call>, cache: map<Value, string>, openedUrls: seq<string>, mockCalls: seq<MockCall>)

  // ---------------------------------------------------------------------
  // The dispatcher
  // ---------------------------------------------------------------------

  class BookingDispatcher {
    const host: Host
    const store: Store
    /** The stored API key (`localStorage`), read when a call is made. */
    const credential: Option<string>
    /** `SEARCH_CACHE`: query -> rendered results card. */
    var cache: map<Value, string>
    /** Gateway calls whose answer has not arrived yet. */
    var calls: seq<Call>
    /** URLs handed to `window.open`. */
    var openedUrls: seq<string>
    /** Calls made into the mock booking API. */
    var mockCalls: seq<MockCall>

    /**
     * The store is valid; only queries that can hit are cached; a call is in
     * flight only when a key is stored, and its loading step is still there
     * to be overwritten.
     */
    ghost predicate Valid()
      reads this, store
    {
      && store.Valid()
      && (forall q :: q in cache ==> IntentRules.Cacheable(q))
      && (|calls| > 0 ==> credential.Some? && credential.value != "")
      && Placed(calls, store.steps)
    }

    ghost function Snap(): Snapshot
      reads this, store
    {
      Snapshot(store.messages, store.steps, store.nextId, store.now, calls, cache, openedUrls, mockCalls)
    }

    constructor(host: Host, now: int, credential: Option<string>)
      ensures Valid() && fresh(store)
      ensures this.host == host && this.credential == credential
      ensures store.messages == [] && store.steps == [] && store.now == now
      ensures cache == map[] && calls == [] && openedUrls == [] && mockCalls == []
    {
      this.host := host;
      store := new Store(now);
      this.credential := credential;
      cache := map[];
      calls := [];
      openedUrls := [];
      mockCalls := [];
    }

    // ----- what one event leaves behind, relative to the state before it

    /** The cache, the opened URLs and the clock are as they were. */
    ghost predicate Kept(b: Snapshot)
      reads this, store
    {
      cache == b.cache && openedUrls == b.openedUrls && store.now == b.now
    }

    /** Nothing on the page changed and no gateway call started. */
    ghost predicate Quiet(b: Snapshot)
      reads this, store
    {
      && store.messages == b.messages && store.steps == b.steps && store.nextId == b.nextId
      && calls == b.calls && Kept(b)
    }

    /** One assistant message with `text` at the end, and nothing else. */
    ghost predicate Said(b: Snapshot, text: string)
      reads this, store
    {
      && store.messages == b.messages + [Message(Issued("m", b.nextId), Agent, text, b.now)]
      && store.steps == b.steps && store.nextId == b.nextId + 1
      && calls == b.calls && mockCalls == b.mockCalls && Kept(b)
    }

    /** An empty assistant message at the end, then a fresh in-progress step holding `data` linked to it. */
    ghost predicate Posted(b: Snapshot, data: StepData)
      reads this, store
    {
      && store.messages == b.messages + [Message(Issued("m", b.nextId), Agent, "", b.now)]
      && store.steps == b.steps + [Step(Issued(KindName(KindOf(data)), b.nextId + 1), None, InProgress,
                                        Some(b.now), Some(Issued("m", b.nextId)), data)]
      && store.nextId == b.nextId + 2
    }

    /**
     * A search for `q` that missed the cache: the loading card is posted and
     * the first stage is requested; when it cannot be requested, the loading
     * step already holds the failure card.
     */
    ghost predicate Searched(b: Snapshot, q: Value)
      reads this, store
    {
      var r := Gateway.Request(credential, Gateway.DefaultModel, q, Intent.SearchOptions(host));
      && Posted(b, HtmlCardData(if r.Success? then LoadingHtml(host) else FailedHtml(host, r.error), None))
      && calls == (if r.Success? then b.calls + [Call(r.value, Facts, q, Issued("HtmlCard", b.nextId + 1), Issued("m", b.nextId))]
                   else b.calls)
      && mockCalls == b.mockCalls && Kept(b)
    }

    /** The effect of each branch of `dispatchIntent` on payload `p`. */
    ghost predicate Dispatched(b: Snapshot, br: Branch, intent: string, p: Value)
      reads this, store
    {
      match br
      case OnSearch =>
        var q := IntentRules.HotelQuery(host, p);
        (q in b.cache ==> Posted(b, HtmlCardData(b.cache[q], None)) && calls == b.calls && mockCalls == b.mockCalls && Kept(b))
        && (q !in b.cache ==> Searched(b, q))
      case OnChooseHotel =>
        var id := Get(p, "id");
        var price := Intent.NumberOr0(host, Get(p, "price"));
        (!id.Str? ==> Said(b, Intent.NoHotelText))
        && (id.Str? ==>
              (mockCalls == b.mockCalls + [ChooseHotelCall(id.s)] && calls == b.calls && Kept(b)
               && (Truthy(Get(p, "name")) && price.Num? ==> Posted(b, Intent.PayloadSummary(host, p, id.s, price.n)))
               && (!(Truthy(Get(p, "name")) && price.Num?) ==> Quiet(b))))
      case OnSelect =>
        var id := Get(p, "id");
        (!id.Str? ==> Said(b, Intent.NoHotelText))
        && (id.Str? ==> mockCalls == b.mockCalls + [ChooseHotelCall(id.s)] && Quiet(b))
      case OnOpenUrl =>
        var url := Get(p, "url");
        (!url.Str? ==> Said(b, Intent.NoUrlText))
        && (url.Str? ==>
              (openedUrls == b.openedUrls + [url.s] && mockCalls == b.mockCalls
               && store.messages == b.messages && store.steps == b.steps && store.nextId == b.nextId
               && calls == b.calls && cache == b.cache && store.now == b.now))
      case OnPayNow =>
        var amount := Intent.NumberOr0(host, Get(p, "amount"));
        (amount.Num? && amount.n > 0.0 ==> mockCalls == b.mockCalls + [PayNowCall(amount.n)] && Quiet(b))
        && (!(amount.Num? && amount.n > 0.0) ==> Said(b, Intent.NoAmountText))
      case OnCalendar => Said(b, CalendarText(host, Get(p, "date")))
      case OnUnknown => Said(b, UnknownText(intent))
    }

    // ----- gateway calls

    /**
     * `callOpenAIResponse` up to the request: without a key the failure is
     * handled at once; otherwise the call joins the calls in flight.
     */
    method StartCall(input: Value, opts: Gateway.Options, stage: Stage, q: Value, placeholder: Id, after: Id)
      requires Valid() && IndexOf(store.steps, placeholder) >= 0
      modifies this, store
      ensures Valid()
      ensures var r := Gateway.Request(credential, Gateway.DefaultModel, input, opts);
        && (r.Success? ==> calls == old(calls) + [Call(r.value, stage, q, placeholder, after)] && store.steps == old(store.steps))
        && (r.Failure? ==>
              calls == old(calls)
              && store.steps == Upserted(old(store.steps), CardStep(placeholder, after, store.now, FailedHtml(host, r.error)), store.now))
      ensures store.messages == old(store.messages) && store.nextId == old(store.nextId) && store.now == old(store.now)
      ensures cache == old(cache) && openedUrls == old(openedUrls) && mockCalls == old(mockCalls)
    {
      var r := Gateway.Request(credential, Gateway.DefaultModel, input, opts);
      if r.Success? {
        calls := calls + [Call(r.value, stage, q, placeholder, after)];
      } else {
        Overwrite(placeholder, after, FailedHtml(host, r.error));
      }
    }

    /**
     * An answer arrives for call `k`. The first stage feeds the second; the
     * second caches the card and overwrites the loading step with it; a
     * failure at either stage overwrites the loading step with the failure
     * card. The timeline never grows here: the loading step is replaced in
     * place.
     */
    method CompleteCall(k: nat, reply: Gateway.Reply)
      requires Valid() && k < |calls|
      modifies this, store
      ensures Valid()
      ensures var c := old(calls)[k]; var r := Gateway.Response(reply, host.showNumber);
        var rest := old(calls)[..k] + old(calls)[k + 1..];
        && (r.Failure? ==>
              calls == rest && cache == old(cache)
              && Replaced(old(store.steps), store.steps, c.placeholder, HtmlCardData(FailedHtml(host, r.error), None)))
        && (r.Success? && c.stage == Facts ==>
              calls == rest + [Call(Gateway.RequestBody(Gateway.DefaultModel, Str(Render(host, RenderPrompt, [r.value])), CardOptions(host)),
                                    Card, c.query, c.placeholder, c.after)]
              && store.steps == old(store.steps) && cache == old(cache))
        && (r.Success? && c.stage == Card ==>
              calls == rest
              && cache == (if IntentRules.Cacheable(c.query) then old(cache)[c.query := r.value] else old(cache))
              && Replaced(old(store.steps), store.steps, c.placeholder, HtmlCardData(r.value, None)))
      ensures store.messages == old(store.messages) && store.nextId == old(store.nextId) && store.now == old(store.now)
      ensures openedUrls == old(openedUrls) && mockCalls == old(mockCalls)
    {
      var c := calls[k];
      var r := Gateway.Response(reply, host.showNumber);
      PlacedTail(calls, store.steps, k);
      calls := calls[..k] + calls[k + 1..];
      if r.Failure? {
        Overwrite(c.placeholder, c.after, FailedHtml(host, r.error));
      } else if c.stage == Facts {
        StartCall(Str(Render(host, RenderPrompt, [r.value])), CardOptions(host), Card, c.query, c.placeholder, c.after);
      } else {
        if IntentRules.Cacheable(c.query) {
          cache := cache[c.query := r.value];
        }
        Overwrite(c.placeholder, c.after, r.value);
      }
    }

    /** `upsertStep` with the loading step's id (the catch block's too): the card replaces it in place. */
    method Overwrite(placeholder: Id, after: Id, html: string)
      requires Valid() && IndexOf(store.steps, placeholder) >= 0
      modifies store
      ensures Valid()
      ensures store.steps == Upserted(old(store.steps), CardStep(placeholder, after, store.now, html), store.now)
      ensures Replaced(old(store.steps), store.steps, placeholder, HtmlCardData(html, None))
      ensures store.messages == old(store.messages) && store.nextId == old(store.nextId) && store.now == old(store.now)
    {
      var step := CardStep(placeholder, after, store.now, html);
      assert store.steps[IndexOf(store.steps, placeholder)].id == placeholder;
      UpsertKeepsPlaced(calls, store.steps, step, store.now);
      UpsertReplaces(store.steps, step, store.now);
      store.UpsertStep(step);
    }

    // ----- the branches

    /** An empty message, then a fresh in-progress step holding `data`, linked to it. */
    method PostStep(data: StepData)
      requires Valid()
      modifies store
      ensures Valid()
      ensures Posted(old(Snap()), data)
      ensures store.now == old(store.now)
    {
      var m := store.AgentSay("");
      var id := store.CreateStepId(KindOf(data));
      var step := Step(id, None, InProgress, Some(store.now), Some(m.id), data);
      AppendFresh(calls, store.steps, step, store.now);
      store.UpsertStep(step);
    }

    /** `agentSay(text)` from a branch. */
    method Say(text: string)
      requires Valid()
      modifies store
      ensures Valid()
      ensures Said(old(Snap()), text)
    {
      var _ := store.AgentSay(text);
    }

    /** `handleHotelSearch(payload)`: a cached card is shown at once; otherwise the search starts. */
    method HandleHotelSearch(p: Value)
      requires Valid()
      modifies this, store
      ensures Valid()
      ensures Dispatched(old(Snap()), OnSearch, "", p)
    {
      var q := IntentRules.HotelQuery(host, p);
      if q in cache {
        PostStep(HtmlCardData(cache[q], None));
      } else {
        Search(q);
      }
    }

    method Search(q: Value)
      requires Valid()
      modifies this, store
      ensures Valid()
      ensures Searched(old(Snap()), q)
    {
      ghost var b := Snap();
      PostStep(HtmlCardData(LoadingHtml(host), None));
      Request(b, q);
    }

    /** The first stage of a search whose loading step was just posted. */
    method Request(ghost b: Snapshot, q: Value)
      requires Valid() && Posted(b, HtmlCardData(LoadingHtml(host), None))
      requires calls == b.calls && mockCalls == b.mockCalls && Kept(b)
      requires forall j :: 0 <= j < |b.steps| ==> b.steps[j].id != Issued("HtmlCard", b.nextId + 1)
      modifies this, store
      ensures Valid()
      ensures Searched(b, q)
    {
      var n := store.nextId - 2;
      var id := Issued("HtmlCard", n + 1);
      var after := Issued("m", n);
      ghost var r := Gateway.Request(credential, Gateway.DefaultModel, q, Intent.SearchOptions(host));
      ghost var loading := CardStep(id, after, store.now, LoadingHtml(host));
      ghost var failed := CardStep(id, after, store.now, if r.Failure? then FailedHtml(host, r.error) else "");
      assert store.steps == b.steps + [loading];
      ReplaceLast(b.steps, loading, failed, store.now);
      StartCall(q, Intent.SearchOptions(host), Facts, q, id, after);
    }

    /** `choose_hotel`: ask the mock to book, then add the payload's own summary when it names a hotel and a price. */
    method ChooseHotelBranch(p: Value)
      requires Valid()
      modifies this, store
      ensures Valid()
      ensures Dispatched(old(Snap()), OnChooseHotel, "", p)
    {
      var id := Get(p, "id");
      if id.Str? {
        mockCalls := mockCalls + [ChooseHotelCall(id.s)];
        var price := Intent.NumberOr0(host, Get(p, "price"));
        if Truthy(Get(p, "name")) && price.Num? {
          PostStep(Intent.PayloadSummary(host, p, id.s, price.n));
        }
      } else {
        Say(Intent.NoHotelText);
      }
    }

    /** `select_hotel` / `select`: ask the mock to book a string id. */
    method SelectBranch(p: Value)
      requires Valid()
      modifies this, store
      ensures Valid()
      ensures Dispatched(old(Snap()), OnSelect, "", p)
    {
      var id := Get(p, "id");
      if id.Str? {
        mockCalls := mockCalls + [ChooseHotelCall(id.s)];
      } else {
        Say(Intent.NoHotelText);
      }
    }

    /** `open_url`: a string url is opened in a new tab; anything else gets the demo notice. */
    method OpenUrlBranch(p: Value)
      requires Valid()
      modifies this, store
      ensures Valid()
      ensures Dispatched(old(Snap()), OnOpenUrl, "", p)
    {
      var url := Get(p, "url");
      if url.Str? {
        openedUrls := openedUrls + [url.s];
      } else {
        Say(Intent.NoUrlText);
      }
    }

    /** `pay_now`: pay only a positive numeric amount; otherwise ask for one. */
    method PayBranch(p: Value)
      requires Valid()
      modifies this, store
      ensures Valid()
      ensures Dispatched(old(Snap()), OnPayNow, "", p)
    {
      var amount := Intent.NumberOr0(host, Get(p, "amount"));
      if amount.Num? && amount.n > 0.0 {
        mockCalls := mockCalls + [PayNowCall(amount.n)];
      } else {
        Say(Intent.NoAmountText);
      }
    }

    /**
     * `dispatchIntent(intent, rawPayload)`: the branch is chosen on the
     * lowercased, trimmed name; the default reply quotes the name as
     * received.
     */
    method DispatchIntent(intent: string, rawPayload: Option<string>)
      requires Valid()
      modifies this, store
      ensures Valid()
      ensures Dispatched(old(Snap()), Classify(IntentRules.Normalize(intent)), intent, Intent.Decoded(host, rawPayload))
    {
      var p := Intent.Decoded(host, rawPayload);
      match Classify(IntentRules.Normalize(intent))
      case OnSearch => HandleHotelSearch(p);
      case OnChooseHotel => ChooseHotelBranch(p);
      case OnSelect => SelectBranch(p);
      case OnOpenUrl => OpenUrlBranch(p);
      case OnPayNow => PayBranch(p);
      case OnCalendar => Say(CalendarText(host, Get(p, "date")));
      case OnUnknown => Say(UnknownText(intent));
    }
  }
}
