/**
 * The session store of the threaded assistant: chat messages, timeline steps,
 * per-service threads with a preview line and an unread counter, the active
 * thread, and a shallow-merged relocation plan. Deferred work (`setTimeout`
 * callbacks and the dynamic import that starts a service workflow) is an
 * explicit queue of timers on the store; the clock is a field.
 */
module SessionStore {
  import opened Wrappers
  import opened Js
  import opened Environment
  import opened Timeline

  // ---------------------------------------------------------------------
  // Services and their display configuration
  // ---------------------------------------------------------------------

  datatype Config = Config(title: string, avatar: string, color: string)

  const Configs: map<string, Config> := map[
    "general" := Config("General Planning", "🏠", "#6b7280"),
    "immigration" := Config("Immigration & Visa", "📋", "#3b82f6"),
    "shipping" := Config("Shipping & Moving", "📦", "#f59e0b"),
    "housing" := Config("Housing", "🏡", "#10b981"),
    "finance" := Config("Finance & Banking", "💰", "#059669"),
    "healthcare" := Config("Healthcare", "🏥", "#dc2626"),
    "transportation" := Config("Transportation", "🚗", "#7c3aed"),
    "lifestyle" := Config("Lifestyle & Community", "🌟", "#ec4899"),
    "education" := Config("Children & Education", "🎓", "#f97316"),
    "pets" := Config("Pet Relocation", "🐾", "#8b5cf6"),
    "accommodation" := Config("Temporary Housing", "🏨", "#06b6d4"),
    "insurance" := Config("Insurance", "🛡️", "#84cc16"),
    "utilities" := Config("Utilities & Services", "⚡", "#64748b")
  ]

  /** `getServiceConfig`: the service's entry, or the general one for a service it does not know. */
  function ServiceConfig(service: string): (c: Config)
    ensures service in Configs ==> c == Configs[service]
    ensures service !in Configs ==> c == Config("General Planning", "🏠", "#6b7280")
  {
    if service in Configs then Configs[service] else Configs["general"]
  }

  // ---------------------------------------------------------------------
  // Messages, threads and the plan
  // ---------------------------------------------------------------------

  datatype Role = User | Gullie

  datatype Message = Message(id: Id, role: Role, text: string, ts: int, threadId: Id)

  datatype Thread = Thread(
    id: Id, title: string, service: string, lastMessage: Option<string>,
    lastMessageTime: Option<int>, unreadCount: nat, avatar: string, color: string)

  const GeneralId: Id := Fixed("general")

  const GeneralThread: Thread := Thread(GeneralId, "General Planning", "general", None, None, 0, "🏠", "#6b7280")

  datatype PlanField =
    | FromCity | ToCity | Date | MoveDate | PackingDate | FurniturePickupDate
    | HotelName | HotelAddress | HotelConfirmation | TravelBookingRef
    | HouseholdSize | HasPets | PetDetails | HasVisa | VisaStatus
    | AccommodationType | AccommodationBudget | AccommodationDuration | ImmigrationStatus
    | Budget | SpecialRequirements | SelectedDate | UserEmail | UserName | MoveType

  /** The relocation plan: whichever fields have been set, each holding the value it was given. */
  type Plan = map<PlanField, Value>

  const EmptyPlan: Plan := map[FromCity := Str(""), ToCity := Str("")]

  /** `{ ...(plan ?? { fromCity: '', toCity: '' }), ...partial }` */
  function MergePlan(plan: Option<Plan>, partial: Plan): (r: Plan)
    ensures forall f :: f in partial ==> f in r && r[f] == partial[f]
    ensures plan.Some? ==> forall f :: f in plan.value && f !in partial ==> f in r && r[f] == plan.value[f]
    ensures plan.None? ==> forall f :: f in EmptyPlan && f !in partial ==> f in r && r[f] == EmptyPlan[f]
    ensures forall f :: f in r ==> f in partial || (plan.Some? && f in plan.value) || (plan.None? && f in EmptyPlan)
  {
    (if plan.Some? then plan.value else EmptyPlan) + partial
  }

  /** `store.relocationPlan?.field`: undefined when there is no plan or the field was never set. */
  function PlanValue(plan: Option<Plan>, f: PlanField): Value {
    if plan.Some? && f in plan.value then plan.value[f] else Undefined
  }

  /** Merging `a` and then `b` is merging `a` overridden by `b`; for disjoint partials their order does not matter. */
  lemma {:induction false} MergeTwice(plan: Option<Plan>, a: Plan, b: Plan)
    ensures MergePlan(Some(MergePlan(plan, a)), b) == MergePlan(plan, a + b)
    ensures a.Keys !! b.Keys ==> MergePlan(Some(MergePlan(plan, a)), b) == MergePlan(plan, b + a)
  {
    var base := if plan.Some? then plan.value else EmptyPlan;
    assert (base + a) + b == base + (a + b);
    if a.Keys !! b.Keys {
      assert a + b == b + a;
    }
  }

  // ---------------------------------------------------------------------
  // Deferred work
  // ---------------------------------------------------------------------

  /** A callback waiting on the timer queue, with everything it captured when it was scheduled. */
  datatype Deferred =
    | Post(thread: Id, text: string)                               // gullieSay(text, thread)
    | StartWorkflow(service: string, thread: Id)                   // startServiceWorkflow after the module import
    | AskShippingType(thread: Id, householdSize: string)           // askShippingTypeQuestion(thread, size)
    | DogDetails(thread: Id)                                       // reads the plan's cities when it fires
    | MoveTypeFollowUp(thread: Id, moveType: Value)
    | AccommodationContent(thread: Id, toCity: Value, fromCity: Value)
    | Continuation(thread: Id, intent: string, data: Value, handled: bool)
    | PartnerConnection                                            // posts to whichever thread is active then

  /** The thread a deferred post was addressed to when it was scheduled. */
  function Target(d: Deferred): Option<Id> {
    if d.PartnerConnection? then None else Some(d.thread)
  }

  datatype Timer = Timer(due: int, action: Deferred)

  // ---------------------------------------------------------------------
  // Thread bookkeeping as functions of the thread list
  // ---------------------------------------------------------------------

  /** `threads.find(t => t.id === id)`, as an index (-1 when absent). */
  function ThreadIndex(threads: seq<Thread>, id: Id): (k: int)
    ensures -1 <= k < |threads|
    ensures k == -1 <==> forall j :: 0 <= j < |threads| ==> threads[j].id != id
    ensures k >= 0 ==> threads[k].id == id && forall j :: 0 <= j < k ==> threads[j].id != id
  {
    FindIndex(threads, (t: Thread) => t.id, id)
  }

  /** `threads.find(t => t.service === service)`, as an index (-1 when absent). */
  function ServiceIndex(threads: seq<Thread>, service: string): (k: int)
    ensures -1 <= k < |threads|
    ensures k == -1 <==> forall j :: 0 <= j < |threads| ==> threads[j].service != service
    ensures k >= 0 ==> threads[k].service == service && forall j :: 0 <= j < k ==> threads[j].service != service
  {
    FindIndex(threads, (t: Thread) => t.service, service)
  }

  /** The UTF-16 code units a character takes: two for a character outside the Basic Multilingual Plane. */
  function Units(c: char): nat {
    if c as int >= 0x1_0000 then 2 else 1
  }

  /** A string's `.length`: its UTF-16 code units. */
  function Utf16Length(s: string): (n: nat)
    ensures n >= |s|
  {
    if s == [] then 0 else Units(s[0]) + Utf16Length(s[1..])
  }

  /**
   * `s.slice(0, n)` in code units: the longest prefix of whole characters
   * that fits in `n` units (a cut inside a surrogate pair stops before it).
   */
  function TakeUnits(s: string, n: nat): (r: string)
    ensures |r| <= |s| && r == s[..|r|] && Utf16Length(r) <= n
    ensures |r| < |s| ==> Utf16Length(r) + Units(s[|r|]) > n
    ensures Utf16Length(s) <= n ==> r == s
  {
    if s == [] || Units(s[0]) > n then []
    else [s[0]] + TakeUnits(s[1..], n - Units(s[0]))
  }

  /**
   * The subtitle line: the cleaned text, cut to its first 50 UTF-16 code
   * units plus "..." when it is longer than 50 units.
   */
  function Preview(clean: string): (r: string)
    ensures Utf16Length(clean) <= 50 ==> r == clean
    ensures Utf16Length(clean) > 50 ==>
              var cut := |r| - 3;
              && 0 <= cut < |clean| && r[..cut] == clean[..cut] && r[cut..] == "..."
              && 49 <= Utf16Length(r[..cut]) <= 50
              && Utf16Length(r[..cut]) + Units(clean[cut]) > 50
  {
    if Utf16Length(clean) > 50 then
      var cut := TakeUnits(clean, 50);
      assert clean[..|clean|] == clean;
      assert (cut + "...")[..|cut|] == cut;
      cut + "..."
    else clean
  }

  /** On text whose characters all take one code unit, units are characters. */
  lemma {:induction false} InPlane(s: string, n: nat)
    requires forall k :: 0 <= k < |s| ==> s[k] as int < 0x1_0000
    ensures Utf16Length(s) == |s|
    ensures n <= |s| ==> TakeUnits(s, n) == s[..n]
  {
    if s != [] {
      InPlane(s[1..], if n > 0 then n - 1 else 0);
      if 0 < n <= |s| {
        assert s[..n] == [s[0]] + s[1..][..n - 1];
      }
    }
  }

  /** On such text the preview is cut at 50 characters. */
  lemma PreviewInPlane(clean: string)
    requires forall k :: 0 <= k < |clean| ==> clean[k] as int < 0x1_0000
    ensures |clean| <= 50 ==> Preview(clean) == clean
    ensures |clean| > 50 ==> Preview(clean) == clean[..50] + "..."
  {
    InPlane(clean, 50);
  }

  /** `updateThreadLastMessage`, on the value of the thread list. */
  function Touched(threads: seq<Thread>, id: Id, text: string, active: Id, now: int, strip: string -> string): (r: seq<Thread>)
    ensures SameThreads(threads, r)
  {
    var k := ThreadIndex(threads, id);
    if k < 0 then threads else threads[k := Touch(threads[k], text, active, now, strip)]
  }

  /** The addressed thread after a post: new preview and time, one more unread message unless it is active. */
  function Touch(t: Thread, text: string, active: Id, now: int, strip: string -> string): (u: Thread)
    ensures u.id == t.id && u.service == t.service
  {
    t.(lastMessage := Some(Preview(Trim(strip(text)))),
       lastMessageTime := Some(now),
       unreadCount := if t.id != active then t.unreadCount + 1 else t.unreadCount)
  }

  /**
   * After a post to thread `id`: that thread's preview is the stripped, trimmed
   * text (cut to 50 characters plus "..."), its unread counter rises by exactly
   * one iff it is not the active thread, and no other thread changes; an
   * unknown id changes nothing.
   */
  lemma TouchEffect(threads: seq<Thread>, id: Id, text: string, active: Id, now: int, strip: string -> string)
    ensures var r := Touched(threads, id, text, active, now, strip);
      var k := ThreadIndex(threads, id);
      && |r| == |threads|
      && (k < 0 ==> r == threads)
      && (k >= 0 ==>
            && r[k].lastMessage == Some(Preview(Trim(strip(text))))
            && r[k].lastMessageTime == Some(now)
            && (r[k].unreadCount == threads[k].unreadCount + 1 <==> id != active)
            && (id == active ==> r[k].unreadCount == threads[k].unreadCount)
            && r[k].id == threads[k].id && r[k].service == threads[k].service && r[k].title == threads[k].title)
      && forall j :: 0 <= j < |threads| && j != k ==> r[j] == threads[j]
  {
    var k := ThreadIndex(threads, id);
    if k >= 0 {
      var u := Touch(threads[k], text, active, now, strip);
      assert threads[k].id == id;
      assert u.unreadCount == (if id != active then threads[k].unreadCount + 1 else threads[k].unreadCount);
      assert Touched(threads, id, text, active, now, strip) == threads[k := u];
    }
  }

  /** The thread list after `texts` were posted, in order, to thread `id`: one `Touched` per text. */
  function TouchedBy(threads: seq<Thread>, id: Id, texts: seq<string>, active: Id, now: int, strip: string -> string): (r: seq<Thread>)
    ensures SameThreads(threads, r)
    decreases |texts|
  {
    if texts == [] then threads
    else TouchedBy(Touched(threads, id, texts[0], active, now, strip), id, texts[1..], active, now, strip)
  }

  /**
   * `r` is `threads` after `count` posts to thread `id`, the last of them
   * `last`: the thread's preview is the last post's, it is stamped `now`,
   * its unread counter rose once per post unless it is the active thread,
   * and no other thread changed; an unknown id changes nothing.
   */
  predicate PostedEffect(threads: seq<Thread>, r: seq<Thread>, id: Id, last: string, count: nat,
                         active: Id, now: int, strip: string -> string)
  {
    var k := ThreadIndex(threads, id);
    && |r| == |threads|
    && (k < 0 ==> r == threads)
    && (k >= 0 ==>
          && r[k].lastMessage == Some(Preview(Trim(strip(last))))
          && r[k].lastMessageTime == Some(now)
          && r[k].unreadCount == threads[k].unreadCount + (if id != active then count else 0)
          && r[k].id == threads[k].id && r[k].service == threads[k].service && r[k].title == threads[k].title)
    && forall j :: 0 <= j < |threads| && j != k ==> r[j] == threads[j]
  }

  /**
   * Posting `texts` to a known thread leaves its preview at the last text's,
   * stamps it `now`, raises its unread counter once per text unless it is the
   * active thread, and touches no other thread; an unknown id changes nothing.
   */
  lemma {:induction false} TouchedByEffect(threads: seq<Thread>, id: Id, texts: seq<string>, active: Id, now: int, strip: string -> string)
    requires texts != []
    ensures PostedEffect(threads, TouchedBy(threads, id, texts, active, now, strip), id, texts[|texts| - 1], |texts|,
                         active, now, strip)
    decreases |texts|
  {
    var mid := Touched(threads, id, texts[0], active, now, strip);
    assert PostedEffect(threads, mid, id, texts[0], 1, active, now, strip) by {
      TouchEffect(threads, id, texts[0], active, now, strip);
    }
    if |texts| == 1 {
      assert TouchedBy(threads, id, texts, active, now, strip) == mid by {
        assert texts == [texts[0]];
        TouchedByOne(threads, id, texts[0], active, now, strip);
      }
    } else {
      var rest := texts[1..];
      var r := TouchedBy(mid, id, rest, active, now, strip);
      assert PostedEffect(mid, r, id, texts[|texts| - 1], |rest|, active, now, strip) by {
        TouchedByEffect(mid, id, rest, active, now, strip);
        assert rest[|rest| - 1] == texts[|texts| - 1];
      }
      PostedEffectChain(threads, mid, r, id, texts[0], 1, texts[|texts| - 1], |rest|, active, now, strip);
    }
  }


  /** One run of posts to a thread, then another, is one run: the counts add and the later last post wins. */
  lemma PostedEffectChain(threads: seq<Thread>, mid: seq<Thread>, r: seq<Thread>, id: Id, a: string, n: nat,
                          b: string, m: nat, active: Id, now: int, strip: string -> string)
    requires SameThreads(threads, mid)
    requires PostedEffect(threads, mid, id, a, n, active, now, strip)
    requires PostedEffect(mid, r, id, b, m, active, now, strip)
    ensures PostedEffect(threads, r, id, b, n + m, active, now, strip)
  {
    SameThreadsLookups(threads, mid, id, "");
  }

  /** One post is one `Touched`. */
  lemma TouchedByOne(threads: seq<Thread>, id: Id, text: string, active: Id, now: int, strip: string -> string)
    ensures TouchedBy(threads, id, [text], active, now, strip) == Touched(threads, id, text, active, now, strip)
  {
  }

  /** Two runs of posts to one thread are one run. */
  lemma {:induction false} TouchedByChain(threads: seq<Thread>, id: Id, a: seq<string>, b: seq<string>, active: Id, now: int, strip: string -> string)
    ensures TouchedBy(TouchedBy(threads, id, a, active, now, strip), id, b, active, now, strip)
            == TouchedBy(threads, id, a + b, active, now, strip)
    decreases |a|
  {
    if a == [] {
      assert a + b == b;
    } else {
      assert (a + b)[0] == a[0] && (a + b)[1..] == a[1..] + b;
      TouchedByChain(Touched(threads, id, a[0], active, now, strip), id, a[1..], b, active, now, strip);
    }
  }

  /** The texts of a run of messages, in order. */
  function Texts(ms: seq<Message>): seq<string> {
    seq(|ms|, k requires 0 <= k < |ms| => ms[k].text)
  }

  /** The texts `Appended` speaks of are the texts of the messages added. */
  lemma AppendedTexts(before: seq<Message>, after: seq<Message>, role: Role, texts: seq<string>, thread: Id)
    requires Appended(before, after, role, texts, thread)
    ensures Texts(after[|before|..]) == texts
  {
    var added := after[|before|..];
    forall k | 0 <= k < |added| ensures added[k].text == texts[k] {
      assert added[k] == after[|before| + k];
    }
  }

  /**
   * The messages added after `before` all went to the active thread, and
   * the thread list followed them: each of them, in order, updated the
   * active thread (`TouchedBy` with their texts).
   */
  predicate Tracked(before: seq<Message>, after: seq<Message>, threads: seq<Thread>, threadsAfter: seq<Thread>,
                    active: Id, now: int, strip: string -> string)
  {
    && |before| <= |after| && after[..|before|] == before
    && (forall k :: |before| <= k < |after| ==> after[k].threadId == active)
    && threadsAfter == TouchedBy(threads, active, Texts(after[|before|..]), active, now, strip)
  }

  /** For a run of posts to the active thread, `Tracked` is `TouchedBy` of the posted texts. */
  lemma TrackedPosts(before: seq<Message>, after: seq<Message>, role: Role, texts: seq<string>,
                     threads: seq<Thread>, threadsAfter: seq<Thread>, active: Id, now: int, strip: string -> string)
    requires Appended(before, after, role, texts, active)
    ensures Tracked(before, after, threads, threadsAfter, active, now, strip)
            <==> threadsAfter == TouchedBy(threads, active, texts, active, now, strip)
  {
    AppendedTexts(before, after, role, texts, active);
  }

  /** Nothing posted: the thread list is as it was. */
  lemma TrackedNothing(messages: seq<Message>, threads: seq<Thread>, active: Id, now: int, strip: string -> string)
    ensures Tracked(messages, messages, threads, threads, active, now, strip)
  {
    assert messages[|messages|..] == [];
    assert Texts([]) == [];
  }

  /** Two tracked runs make one. */
  lemma TrackedChain(a: seq<Message>, b: seq<Message>, c: seq<Message>, ta: seq<Thread>, tb: seq<Thread>, tc: seq<Thread>,
                     active: Id, now: int, strip: string -> string)
    requires Tracked(a, b, ta, tb, active, now, strip) && Tracked(b, c, tb, tc, active, now, strip)
    ensures Tracked(a, c, ta, tc, active, now, strip)
  {
    assert c[..|a|] == c[..|b|][..|a|];
    forall k | |a| <= k < |b| ensures c[k].threadId == active {
      assert c[k] == c[..|b|][k];
    }
    assert c[|a|..] == b[|a|..] + c[|b|..] by {
      assert c == c[..|b|] + c[|b|..];
    }
    TextsAppend(b[|a|..], c[|b|..]);
    TouchedByChain(ta, active, Texts(b[|a|..]), Texts(c[|b|..]), active, now, strip);
  }

  lemma TextsAppend(x: seq<Message>, y: seq<Message>)
    ensures Texts(x + y) == Texts(x) + Texts(y)
  {
  }

  /**
   * What a tracked run does to the thread list: with no posts nothing
   * changes; otherwise the active thread shows the last post, and its
   * counter is left alone because it is the active one.
   */
  lemma TrackedEffect(before: seq<Message>, after: seq<Message>, threads: seq<Thread>, threadsAfter: seq<Thread>,
                      active: Id, now: int, strip: string -> string)
    requires Tracked(before, after, threads, threadsAfter, active, now, strip)
    ensures SameThreads(threads, threadsAfter)
    ensures |after| == |before| ==> threadsAfter == threads
    ensures |after| > |before| ==>
              PostedEffect(threads, threadsAfter, active, after[|after| - 1].text, |after| - |before|, active, now, strip)
  {
    var texts := Texts(after[|before|..]);
    if |after| > |before| {
      TouchedByEffect(threads, active, texts, active, now, strip);
      assert texts[|texts| - 1] == after[|after| - 1].text;
    } else {
      assert texts == [];
    }
  }

  /** `threadId || store.activeThreadId` */
  function Addressee(threadId: Option<Id>, active: Id): Id {
    if threadId.Some? && IdText(threadId.value) != "" then threadId.value else active
  }

  /** `messages` grew by exactly the given texts, all from `role` and addressed to `thread`. */
  predicate Appended(before: seq<Message>, after: seq<Message>, role: Role, texts: seq<string>, thread: Id) {
    && |after| == |before| + |texts|
    && after[..|before|] == before
    && forall k :: |before| <= k < |after| ==>
         after[k].role == role && after[k].text == texts[k - |before|] && after[k].threadId == thread
  }

  lemma AppendedChain(a: seq<Message>, b: seq<Message>, c: seq<Message>, role: Role, s: seq<string>, t: seq<string>, thread: Id)
    requires Appended(a, b, role, s, thread) && Appended(b, c, role, t, thread)
    ensures Appended(a, c, role, s + t, thread)
  {
    assert c[..|a|] == c[..|b|][..|a|] == b[..|a|] == a;
    assert |c| == |a| + |s + t|;
    forall k | |a| <= k < |c|
      ensures c[k].role == role && c[k].text == (s + t)[k - |a|] && c[k].threadId == thread
    {
      if k < |b| {
        assert c[k] == c[..|b|][k] == b[k];
      }
    }
  }

  /** Thread ids are pairwise distinct. */
  predicate DistinctIds(threads: seq<Thread>) {
    forall j, k :: 0 <= j < k < |threads| ==> threads[j].id != threads[k].id
  }

  /** At most one thread per service. */
  predicate DistinctServices(threads: seq<Thread>) {
    forall j, k :: 0 <= j < k < |threads| ==> threads[j].service != threads[k].service
  }

  /** The same threads in the same order: only previews, times and unread counters may differ. */
  predicate SameThreads(a: seq<Thread>, b: seq<Thread>) {
    |a| == |b| && forall j :: 0 <= j < |a| ==> b[j].id == a[j].id && b[j].service == a[j].service
  }

  /** Lookups by id and by service, and the one-thread-per-service rule, see only ids and services. */
  lemma SameThreadsLookups(a: seq<Thread>, b: seq<Thread>, id: Id, service: string)
    requires SameThreads(a, b)
    ensures ThreadIndex(b, id) == ThreadIndex(a, id)
    ensures ServiceIndex(b, service) == ServiceIndex(a, service)
    ensures DistinctServices(a) ==> DistinctServices(b)
  {
    var k := ThreadIndex(a, id);
    if k >= 0 {
      assert b[k].id == id;
    }
    var m := ServiceIndex(a, service);
    if m >= 0 {
      assert b[m].service == service;
    }
  }

  /** An id this store could have issued: fixed, or counted below `n`. */
  predicate IssuedBelow(id: Id, n: nat) {
    id.Issued? ==> id.n < n
  }

  // ---------------------------------------------------------------------
  // The store
  // ---------------------------------------------------------------------

  class Store {
    const host: Host
    var messages: seq<Message>
    var steps: seq<Step>
    var plan: Option<Plan>
    var threads: seq<Thread>
    var activeThreadId: Id
    var now: int
    var nextId: nat
    var timers: seq<Timer>

    /** The general thread stays first; thread ids are distinct; every issued id came from the counter. */
    ghost predicate Valid()
      reads this
    {
      && |threads| >= 1
      && threads[0].id == GeneralId && threads[0].service == "general"
      && (forall j :: 0 <= j < |threads| ==> IssuedBelow(threads[j].id, nextId))
      && DistinctIds(threads)
      && (forall j :: 0 <= j < |steps| ==> IssuedBelow(steps[j].id, nextId))
      && AllStamped(steps)
    }

    /**
     * Every message added since `messagesBefore` went through the active
     * thread's bookkeeping, in order, starting from `threadsBefore`.
     */
    ghost predicate Followed(messagesBefore: seq<Message>, threadsBefore: seq<Thread>)
      reads this
    {
      Tracked(messagesBefore, messages, threadsBefore, threads, activeThreadId, now, host.stripHtml)
    }

    /** The initial state: only the general thread, which is active; no messages, steps or plan. */
    constructor(host: Host, now: int)
      ensures Valid()
      ensures this.host == host && this.now == now
      ensures threads == [GeneralThread] && activeThreadId == GeneralId
      ensures messages == [] && steps == [] && plan == None && timers == []
      ensures nextId == 0
    {
      this.host := host;
      this.now := now;
      messages := [];
      steps := [];
      plan := None;
      threads := [GeneralThread];
      activeThreadId := GeneralId;
      nextId := 0;
      timers := [];
    }

    method Say(role: Role, text: string, threadId: Option<Id>) returns (m: Message)
      requires Valid()
      modifies this
      ensures Valid()
      ensures m == Message(Issued("m", old(nextId)), role, text, now, Addressee(threadId, activeThreadId))
      ensures messages == old(messages) + [m]
      ensures threads == Touched(old(threads), m.threadId, text, activeThreadId, now, host.stripHtml)
      ensures nextId == old(nextId) + 1
      ensures steps == old(steps) && plan == old(plan) && activeThreadId == old(activeThreadId)
      ensures now == old(now) && timers == old(timers)
    {
      var target := Addressee(threadId, activeThreadId);
      m := Message(Issued("m", nextId), role, text, now, target);
      nextId := nextId + 1;
      messages := messages + [m];
      threads := Touched(threads, target, text, activeThreadId, now, host.stripHtml);
    }

    /** `gullieSay(text, threadId?)`: one assistant message at the end, addressed to the given or the active thread. */
    method GullieSay(text: string, threadId: Option<Id>) returns (m: Message)
      requires Valid()
      modifies this
      ensures Valid()
      ensures m == Message(Issued("m", old(nextId)), Gullie, text, now, Addressee(threadId, activeThreadId))
      ensures messages == old(messages) + [m]
      ensures Appended(old(messages), messages, Gullie, [text], Addressee(threadId, activeThreadId))
      ensures threads == Touched(old(threads), m.threadId, text, activeThreadId, now, host.stripHtml)
      ensures nextId == old(nextId) + 1
      ensures steps == old(steps) && plan == old(plan) && activeThreadId == old(activeThreadId)
      ensures now == old(now) && timers == old(timers)
    {
      m := Say(Gullie, text, threadId);
    }

    /** `userSay(text, threadId?)`: the same with the user's role. */
    method UserSay(text: string, threadId: Option<Id>) returns (m: Message)
      requires Valid()
      modifies this
      ensures Valid()
      ensures m == Message(Issued("m", old(nextId)), User, text, now, Addressee(threadId, activeThreadId))
      ensures messages == old(messages) + [m]
      ensures threads == Touched(old(threads), m.threadId, text, activeThreadId, now, host.stripHtml)
      ensures nextId == old(nextId) + 1
      ensures steps == old(steps) && plan == old(plan) && activeThreadId == old(activeThreadId)
      ensures now == old(now) && timers == old(timers)
    {
      m := Say(User, text, threadId);
    }

    /** `getLastUserRequest`: the text of the last user message, if any. */
    method GetLastUserRequest() returns (r: Option<string>)
      ensures r.None? <==> forall k :: 0 <= k < |messages| ==> messages[k].role != User
      ensures r.Some? ==> exists k :: 0 <= k < |messages| && messages[k].role == User && messages[k].text == r.value
                            && forall j :: k < j < |messages| ==> messages[j].role != User
    {
      var i := |messages| - 1;
      while i >= 0
        invariant -1 <= i < |messages|
        invariant forall j :: i < j < |messages| ==> messages[j].role != User
      {
        if messages[i].role == User {
          return Some(messages[i].text);
        }
        i := i - 1;
      }
      return None;
    }

    /** `upsertStep`: merge into the entry with the same id, or append with `ts` defaulted to now. */
    method UpsertStep(step: Step)
      requires Valid() && IssuedBelow(step.id, nextId)
      modifies this
      ensures Valid()
      ensures steps == Upserted(old(steps), step, now)
      ensures messages == old(messages) && plan == old(plan) && threads == old(threads)
      ensures activeThreadId == old(activeThreadId) && now == old(now) && nextId == old(nextId) && timers == old(timers)
    {
      var idx := FindStepIndex(steps, step.id);
      if idx >= 0 {
        steps := steps[idx := Merge(steps[idx], step)];
      } else {
        steps := steps + [Stamped(step, now)];
      }
      UpsertKeepsStamped(old(steps), step, now);
    }

    /** `completeStep`: mark the first step with `id` completed; no-op when there is none. */
    method CompleteStep(id: Id)
      requires Valid()
      modifies this
      ensures Valid()
      ensures steps == MarkCompleted(old(steps), id)
      ensures messages == old(messages) && plan == old(plan) && threads == old(threads)
      ensures activeThreadId == old(activeThreadId) && now == old(now) && nextId == old(nextId) && timers == old(timers)
    {
      var idx := FindStepIndex(steps, id);
      if idx >= 0 {
        steps := steps[idx := steps[idx].(status := Completed)];
      }
    }

    /** `createStepId(kind)`: a fresh id that begins with the kind's name and '_'. */
    method CreateStepId(kind: Kind) returns (id: Id)
      requires Valid()
      modifies this
      ensures Valid()
      ensures id == Issued(KindName(kind), old(nextId)) && nextId == old(nextId) + 1
      ensures StartsWith(IdText(id), KindName(kind) + "_")
      ensures forall j :: 0 <= j < |steps| ==> steps[j].id != id
      ensures messages == old(messages) && steps == old(steps) && plan == old(plan) && threads == old(threads)
      ensures activeThreadId == old(activeThreadId) && now == old(now) && timers == old(timers)
    {
      id := Issued(KindName(kind), nextId);
      nextId := nextId + 1;
    }

    /** `createThread(service, title)`: append one fresh thread with the service's avatar and colour. */
    method CreateThread(service: string, title: string) returns (t: Thread)
      requires Valid()
      modifies this
      ensures Valid()
      ensures t == Thread(Issued("thread", old(nextId)), title, service, None, None, 0,
                          ServiceConfig(service).avatar, ServiceConfig(service).color)
      ensures threads == old(threads) + [t]
      ensures nextId == old(nextId) + 1
      ensures messages == old(messages) && steps == old(steps) && plan == old(plan)
      ensures activeThreadId == old(activeThreadId) && now == old(now) && timers == old(timers)
    {
      var cfg := ServiceConfig(service);
      t := Thread(Issued("thread", nextId), title, service, None, None, 0, cfg.avatar, cfg.color);
      nextId := nextId + 1;
      threads := threads + [t];
    }

    /** `switchToThread(id)`: make `id` active and reset that thread's unread counter (if it exists). */
    method SwitchToThread(id: Id)
      requires Valid()
      modifies this
      ensures Valid()
      ensures activeThreadId == id
      ensures |threads| == |old(threads)|
      ensures ThreadIndex(old(threads), id) >= 0 ==>
                threads == old(threads)[ThreadIndex(old(threads), id) := old(threads)[ThreadIndex(old(threads), id)].(unreadCount := 0)]
      ensures ThreadIndex(old(threads), id) < 0 ==> threads == old(threads)
      ensures SameThreads(old(threads), threads)
      ensures messages == old(messages) && steps == old(steps) && plan == old(plan)
      ensures now == old(now) && nextId == old(nextId) && timers == old(timers)
    {
      activeThreadId := id;
      var k := ThreadIndex(threads, id);
      if k >= 0 {
        threads := threads[k := threads[k].(unreadCount := 0)];
      }
    }

    /**
     * `getOrCreateServiceThread(service)`: the first thread of that service,
     * unchanged; otherwise a new thread titled from the service's configuration,
     * whose workflow is started (after the module import, i.e. on the queue).
     */
    method GetOrCreateServiceThread(service: string) returns (t: Thread)
      requires Valid()
      modifies this
      ensures Valid()
      ensures ServiceIndex(old(threads), service) >= 0 ==>
                t == old(threads)[ServiceIndex(old(threads), service)] && threads == old(threads)
                && nextId == old(nextId) && timers == old(timers)
      ensures ServiceIndex(old(threads), service) < 0 ==>
                t == Thread(Issued("thread", old(nextId)), ServiceConfig(service).title, service, None, None, 0,
                            ServiceConfig(service).avatar, ServiceConfig(service).color)
                && threads == old(threads) + [t]
                && nextId == old(nextId) + 1
                && timers == old(timers) + [Timer(now, StartWorkflow(service, t.id))]
      ensures t.service == service && ThreadIndex(threads, t.id) >= 0
      ensures ServiceIndex(threads, service) >= 0 && threads[ServiceIndex(threads, service)] == t
      ensures DistinctServices(old(threads)) ==> DistinctServices(threads)
      ensures messages == old(messages) && steps == old(steps) && plan == old(plan)
      ensures activeThreadId == old(activeThreadId) && now == old(now)
    {
      var k := ServiceIndex(threads, service);
      if k >= 0 {
        t := threads[k];
        assert ThreadIndex(threads, t.id) >= 0 by {
          assert threads[k].id == t.id;
        }
      } else {
        t := CreateThread(service, ServiceConfig(service).title);
        StartServiceConversation(service, t.id);
        assert threads[|threads| - 1].id == t.id;
      }
    }

    /** The dynamic import resolves after the current event: the workflow start is queued with no delay. */
    method StartServiceConversation(service: string, threadId: Id)
      modifies this
      ensures timers == old(timers) + [Timer(now, StartWorkflow(service, threadId))]
      ensures messages == old(messages) && steps == old(steps) && plan == old(plan) && threads == old(threads)
      ensures activeThreadId == old(activeThreadId) && now == old(now) && nextId == old(nextId)
    {
      timers := timers + [Timer(now, StartWorkflow(service, threadId))];
    }

    /** `updateRelocationPlan(partial)`: shallow merge over the current plan (or the empty one). */
    method UpdateRelocationPlan(partial: Plan)
      requires Valid()
      modifies this
      ensures Valid()
      ensures plan == Some(MergePlan(old(plan), partial))
      ensures messages == old(messages) && steps == old(steps) && threads == old(threads)
      ensures activeThreadId == old(activeThreadId) && now == old(now) && nextId == old(nextId) && timers == old(timers)
    {
      plan := Some(MergePlan(plan, partial));
    }

    /** `setTimeout(callback, delay)`: queue the callback to run `delay` ms from now. */
    method SetTimeout(delay: nat, action: Deferred)
      requires Valid()
      modifies this
      ensures Valid()
      ensures timers == old(timers) + [Timer(now + delay, action)]
      ensures messages == old(messages) && steps == old(steps) && plan == old(plan) && threads == old(threads)
      ensures activeThreadId == old(activeThreadId) && now == old(now) && nextId == old(nextId)
    {
      timers := timers + [Timer(now + delay, action)];
    }

    /**
     * The event loop takes timer `k` off the queue and the clock moves to its
     * due time (never backwards); the callback itself is run by the caller.
     */
    method TakeTimer(k: nat)
      requires Valid() && k < |timers|
      modifies this
      ensures Valid()
      ensures timers == old(timers)[..k] + old(timers)[k + 1..]
      ensures now == if old(timers)[k].due > old(now) then old(timers)[k].due else old(now)
      ensures messages == old(messages) && steps == old(steps) && plan == old(plan) && threads == old(threads)
      ensures activeThreadId == old(activeThreadId) && nextId == old(nextId)
    {
      if timers[k].due > now {
        now := timers[k].due;
      }
      timers := timers[..k] + timers[k + 1..];
    }
  }
}
