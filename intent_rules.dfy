/**
 * The decisions of the threaded dispatcher that depend only on values: the
 * intent-to-service table, the service a thread answers for, which context
 * the model gateway is instructed with, the hotel-search query, the profile
 * fields an intent captures, and, for every branch that only merges into the
 * plan, posts replies and queues follow-ups, the effect it has.
 */
module IntentRules {
  import opened Wrappers
  import opened Js
  import opened Environment
  import opened Timeline
  import opened SessionStore
  import opened IntentTables

  /** `(intent || '').toLowerCase().trim()` */
  function Normalize(intent: string): (r: string)
    ensures |r| <= |intent|
  {
    Trim(Lower(intent))
  }

  // ---------------------------------------------------------------------
  // Thread -> service, and the instructions sent with a thread's requests
  // ---------------------------------------------------------------------

  /** `getServiceFromThread`: the thread's service, else a guess from its title, else general. */
  function ServiceFromThread(threads: seq<Thread>, id: Id): (r: string)
    ensures ThreadIndex(threads, id) < 0 ==> r == "general"
    ensures ThreadIndex(threads, id) >= 0 && threads[ThreadIndex(threads, id)].service != "" ==>
              r == threads[ThreadIndex(threads, id)].service
  {
    var k := ThreadIndex(threads, id);
    if k < 0 then "general"
    else
      var t := threads[k];
      if t.service != "" then t.service
      else if Contains(t.title, "Shipping") then "shipping"
      else if Contains(t.title, "Pet") then "pets"
      else if Contains(t.title, "Immigration") then "immigration"
      else if Contains(t.title, "Housing") then "housing"
      else "general"
  }

  /** The services with a context of their own; every other service gets the general one. */
  const ContextServices: set<string> := {"shipping", "pets", "immigration", "housing"}

  function ContextKey(serviceType: string): (r: string)
    ensures r == "general" || r in ContextServices
  {
    if serviceType in ContextServices then serviceType else "general"
  }

  /** `getServiceSpecificInstructions`: the shared system instructions, then the service's context. */
  function Instructions(h: Host, serviceType: string): (r: string)
    ensures StartsWith(r, Render(h, SystemInstructions, []))
  {
    Render(h, SystemInstructions, []) + Render(h, ServiceContext(ContextKey(serviceType)), [])
  }

  /** General and unknown services are instructed alike; each listed service gets its own context. */
  lemma GeneralContextForUnknown(h: Host, serviceType: string)
    ensures serviceType !in ContextServices ==> Instructions(h, serviceType) == Instructions(h, "general")
    ensures serviceType in ContextServices ==>
              Instructions(h, serviceType) == Render(h, SystemInstructions, []) + Render(h, ServiceContext(serviceType), [])
  {
    assert "general" !in ContextServices by {
      assert |"general"| == 7 && |"housing"| == 7;
      assert "general"[0] != "housing"[0];
    }
  }

  /** In a thread made by get-or-create (ids and services distinct), requests are instructed for that thread's service. */
  lemma ServiceThreadInstructedForItsService(threads: seq<Thread>, service: string)
    requires DistinctIds(threads) && service != ""
    requires ServiceIndex(threads, service) >= 0
    ensures ServiceFromThread(threads, threads[ServiceIndex(threads, service)].id) == service
  {
    var k := ServiceIndex(threads, service);
    assert ThreadIndex(threads, threads[k].id) == k;
  }

  // ---------------------------------------------------------------------
  // Hotel search query and cache key
  // ---------------------------------------------------------------------

  /** One clause of a built query: the prefix and the field's text, or the default when the field is falsy. */
  function Clause(h: Host, p: Value, field: string, prefix: string, default: string): string {
    if Truthy(Get(p, field)) then prefix + Text(h, Get(p, field)) else default
  }

  /** The query `handleHotelSearch` sends: `payload.query`, else one built from the payload's fields. */
  function HotelQuery(h: Host, p: Value): (r: Value)
    ensures Truthy(Get(p, "query")) ==> r == Get(p, "query")
    ensures !Truthy(Get(p, "query")) ==> r.Str?
  {
    Or(Get(p, "query"), Str("hotels" + Clause(h, p, "near", " near ", " near Javits Center")
                            + Clause(h, p, "walk", " within ", " within 10 minute walk")
                            + Clause(h, p, "date", " available ", "")
                            + Clause(h, p, "budget", " under $", "")))
  }

  /**
   * A built query names each field the payload gives, in the order near,
   * walk, date, budget, and falls back to the Javits Center and a ten-minute
   * walk for the two it needs.
   */
  lemma {:induction false} HotelQueryNamesFields(h: Host, p: Value)
    requires !Truthy(Get(p, "query"))
    ensures StartsWith(HotelQuery(h, p).s, "hotels")
    ensures Contains(HotelQuery(h, p).s, Clause(h, p, "near", " near ", " near Javits Center"))
    ensures Contains(HotelQuery(h, p).s, Clause(h, p, "walk", " within ", " within 10 minute walk"))
    ensures Contains(HotelQuery(h, p).s, Clause(h, p, "date", " available ", ""))
    ensures EndsWith(HotelQuery(h, p).s, Clause(h, p, "budget", " under $", ""))
  {
    QueryParts(Clause(h, p, "near", " near ", " near Javits Center"),
               Clause(h, p, "walk", " within ", " within 10 minute walk"),
               Clause(h, p, "date", " available ", ""),
               Clause(h, p, "budget", " under $", ""));
  }

  lemma QueryParts(near: string, walk: string, date: string, budget: string)
    ensures var q := "hotels" + near + walk + date + budget;
      StartsWith(q, "hotels") && Contains(q, near) && Contains(q, walk) && Contains(q, date) && EndsWith(q, budget)
  {
    var q := "hotels" + near + walk + date + budget;
    assert q == "hotels" + (near + walk + date + budget);
    ContainsMiddle("hotels", near, walk + date + budget);
    assert q == "hotels" + near + (walk + date + budget);
    ContainsMiddle("hotels" + near, walk, date + budget);
    assert q == "hotels" + near + walk + (date + budget);
    ContainsMiddle("hotels" + near + walk, date, budget);
  }

  /** With no payload the query is hotels near the Javits Center within a ten-minute walk. */
  lemma DefaultHotelClauses(h: Host)
    ensures Clause(h, Undefined, "near", " near ", " near Javits Center") == " near Javits Center"
    ensures Clause(h, Undefined, "walk", " within ", " within 10 minute walk") == " within 10 minute walk"
    ensures Clause(h, Undefined, "date", " available ", "") == ""
    ensures Clause(h, Undefined, "budget", " under $", "") == ""
  {
  }

  /**
   * A `Map` compares object keys by identity, and every parse yields a fresh
   * object, so an array or object query never hits the cache; other values
   * are compared by value.
   */
  predicate Cacheable(query: Value) {
    !(query.Arr? || query.Obj?)
  }

  // ---------------------------------------------------------------------
  // The plan's special requirements
  // ---------------------------------------------------------------------

  /** `specialRequirements` is absent or a list: the only shape the dispatcher ever writes. */
  predicate RequirementsListed(plan: Option<Plan>) {
    var v := PlanValue(plan, SpecialRequirements);
    v.Undefined? || v.Arr?
  }

  /** `[...(plan?.specialRequirements || [])]` for a listed plan. */
  function Requirements(plan: Option<Plan>): seq<Value> {
    var v := PlanValue(plan, SpecialRequirements);
    if v.Arr? then v.items else []
  }

  /** The plan after an optional `updateRelocationPlan(partial)`. */
  function Merged(plan: Option<Plan>, partial: Option<Plan>): (r: Option<Plan>)
    ensures partial.None? ==> r == plan
    ensures partial.Some? ==> r.Some? && forall f :: f in partial.value ==> PlanValue(r, f) == partial.value[f]
    ensures partial.Some? ==> forall f :: f !in partial.value && plan.Some? ==> PlanValue(r, f) == PlanValue(plan, f)
  {
    if partial.Some? then Some(MergePlan(plan, partial.value)) else plan
  }

  // ---------------------------------------------------------------------
  // captureProfileData
  // ---------------------------------------------------------------------

  /** The fields `captureProfileData` merges into the plan for an intent and payload, if any. */
  function Captured(h: Host, i: string, p: Value, plan: Option<Plan>): (r: Option<Plan>)
    ensures !Truthy(p) ==> r.None?
    ensures RequirementsListed(plan) ==> RequirementsListed(Merged(plan, r))
    ensures r.Some? && SpecialRequirements in r.value && i != "set_children" ==>
              r.value[SpecialRequirements] == Arr(Requirements(plan) + [Get(p, "details")])
  {
    if !Truthy(p) then None
    else if i == "choose_date" || i == "select_date" then
      if Truthy(Get(p, "date")) then Some(map[SelectedDate := Get(p, "date")]) else None
    else if i == "confirm_household_size" then
      var size := Number(h, Get(p, "size"));
      if size.Num? && size.n > 0.0 then Some(map[HouseholdSize := size]) else None
    else if i == "set_pet_type" then
      if Truthy(Get(p, "details")) && !Get(p, "count").Undefined? then
        Some(map[HasPets := Bool(Get(p, "count") != Str("0") && Get(p, "type") != Str("none")),
                 PetDetails := Get(p, "details")])
      else None
    else if i == "set_children" then
      if Truthy(Get(p, "details")) then Some(map[SpecialRequirements := Arr([Get(p, "details")])]) else None
    else if i == "set_work_status" then
      if Truthy(Get(p, "details")) then
        Some(map[SpecialRequirements := Arr(Requirements(plan) + [Get(p, "details")])])
      else None
    else if i == "choose_hotel" then
      if Truthy(Get(p, "name")) && Truthy(Get(p, "price")) then
        Some(map[HotelName := Get(p, "name"), HotelAddress := Get(p, "address"),
                 Budget := Number(h, Get(p, "price"))])
      else None
    else None
  }

  /** `set_work_status` appends its details after every earlier requirement; `set_children` replaces the list. */
  lemma WorkStatusAppendsChildrenReplace(h: Host, p: Value, plan: Option<Plan>)
    requires Truthy(Get(p, "details"))
    ensures Requirements(Merged(plan, Captured(h, "set_work_status", p, plan))) == Requirements(plan) + [Get(p, "details")]
    ensures Requirements(Merged(plan, Captured(h, "set_children", p, plan))) == [Get(p, "details")]
  {
    assert Truthy(p);
  }

  /** A household size is captured only when it reads as a positive number. */
  lemma HouseholdSizeCapturedOnlyIfPositive(h: Host, p: Value, plan: Option<Plan>)
    ensures var r := Captured(h, "confirm_household_size", p, plan);
      r.Some? <==> Truthy(p) && Number(h, Get(p, "size")).Num? && Number(h, Get(p, "size")).n > 0.0
    ensures var r := Captured(h, "confirm_household_size", p, plan);
      r.Some? ==> r.value == map[HouseholdSize := Number(h, Get(p, "size"))]
  {
  }

  // ---------------------------------------------------------------------
  // Effects of the branches that merge, post and schedule
  // ---------------------------------------------------------------------

  /** A `setTimeout(cb, delay)` the branch queues. */
  datatype Later = Later(delay: nat, action: Deferred)

  /**
   * What such a branch does: an optional merge into the plan (several
   * `updateRelocationPlan` calls in one branch are merged into one, which
   * `MergeTwice` justifies), replies posted to the active thread in order,
   * and follow-ups queued in order.
   */
  datatype Effect = Effect(partial: Option<Plan>, texts: seq<string>, later: seq<Later>)

  /** Every queued follow-up goes to `target`, except the partner hand-off, which has no thread. */
  predicate FollowUpsTo(later: seq<Later>, target: Id) {
    forall k :: 0 <= k < |later| ==> Target(later[k].action).Some? ==> Target(later[k].action) == Some(target)
  }

  function Reply(text: string): (e: Effect)
    ensures LeavesRequirements(e.partial) && e.later == []
  {
    Effect(None, [text], [])
  }

  const Nothing: Effect := Effect(None, [], [])

  // choose_date / select_date

  /** The value of the page's date input, if the page has one. */
  function PickerValue(picker: Option<string>): Value {
    if picker.Some? then Str(picker.value) else Undefined
  }

  /** The date `choose_date` reads: the payload's, or the page's input when the payload says so. */
  function ChosenDate(p: Value, picker: Option<string>): (r: Value)
    ensures Or(Get(p, "date"), Get(p, "value")) != Str("from-input") ==> r == Or(Get(p, "date"), Get(p, "value"))
    ensures Or(Get(p, "date"), Get(p, "value")) == Str("from-input") ==> Truthy(r)
  {
    var given := Or(Get(p, "date"), Get(p, "value"));
    if given == Str("from-input") then Or(PickerValue(picker), Str("2025-09-01")) else given
  }

  function DateChosen(h: Host, p: Value, picker: Option<string>): (e: Effect)
    ensures |e.texts| == 1 && e.later == []
    ensures var date := ChosenDate(p, picker);
      e.partial == (if Truthy(date) then Some(map[SelectedDate := date]) else None)
    ensures e.partial.None? ==> e.texts == ["Please provide a date."]
    ensures LeavesRequirements(e.partial)
  {
    var date := ChosenDate(p, picker);
    if !Truthy(date) then Reply("Please provide a date.")
    else
      Effect(Some(map[SelectedDate := date]),
             [if date == Str("flexible") then Render(h, Prose(FlexibleDates), [])
              else Render(h, Prose(DateSet), [h.formatDate(Text(h, date))])], [])
  }

  // set_household / select_household_size / choose_household / household_size, and confirm_household_size

  function HouseholdSizeGiven(h: Host, p: Value, confirming: bool): (e: Effect)
    ensures |e.texts| == 1 && e.later == []
    ensures var size := Number(h, if confirming then Get(p, "size") else Or(Get(p, "size"), Get(p, "value")));
      e.partial == (if size.Num? && size.n > 0.0 then Some(map[HouseholdSize := size]) else None)
    ensures e.partial.None? && confirming ==> e.texts == ["Please select a valid household size"]
    ensures e.partial.None? && !confirming ==> e.texts == [Render(h, HouseholdSizeSelectionCard, [])]
    ensures LeavesRequirements(e.partial)
  {
    var size := Number(h, if confirming then Get(p, "size") else Or(Get(p, "size"), Get(p, "value")));
    if size.Num? && size.n > 0.0 then
      Effect(Some(map[HouseholdSize := size]), [Render(h, Prose(SizeNoted), [h.showNumber(size.n)])], [])
    else if confirming then Reply("Please select a valid household size")
    else Reply(Render(h, HouseholdSizeSelectionCard, []))
  }

  // select_visa / choose_visa

  function VisaChosen(p: Value): (e: Effect)
    ensures e.partial.Some? && e.later == [] && |e.texts| == 1
    ensures HasVisa in e.partial.value && VisaStatus in e.partial.value
    ensures var hasVisa := Get(p, "hasVisa") == Str("yes") || Get(p, "value") == Str("yes");
      e.partial.value[HasVisa] == Bool(hasVisa)
      && (Truthy(Get(p, "status")) ==> e.partial.value[VisaStatus] == Get(p, "status"))
      && (!Truthy(Get(p, "status")) ==> e.partial.value[VisaStatus] == Str(if hasVisa then "have_visa" else "need_help"))
    ensures LeavesRequirements(e.partial)
  {
    var hasVisa := Get(p, "hasVisa") == Str("yes") || Get(p, "value") == Str("yes");
    var status := Or(Get(p, "status"), Str(if hasVisa then "have_visa" else "need_help"));
    Effect(Some(map[HasVisa := Bool(hasVisa), VisaStatus := status]),
           [if hasVisa then "Visa already obtained" else "Visa assistance needed"], [])
  }

  // set_children / set_work_status / set_pet_type

  /** The pet kinds that get a reply and a follow-up. */
  const AnsweredPetTypes: set<string> := {"dog", "cat", "bird", "exotic"}

  function PetTypeSet(h: Host, p: Value, target: Id): (e: Effect)
    ensures FollowUpsTo(e.later, target)
    ensures e.partial.Some? && HasPets in e.partial.value && e.partial.value[HasPets] == Bool(true)
    ensures |e.texts| == |e.later| <= 1
    ensures LeavesRequirements(e.partial)
  {
    var petType := Or(Get(p, "type"), Str("pet"));
    var details := Or(Get(p, "details"), Str(Text(h, petType) + " relocation"));
    var partial := map[HasPets := Bool(true), PetDetails := details];
    if petType == Str("dog") then
      Effect(Some(partial), [Render(h, Prose(DogIntro), [])], [Later(1000, DogDetails(target))])
    else if petType == Str("cat") then
      Effect(Some(partial), [Render(h, Prose(CatIntro), [])], [Later(1000, Post(target, Render(h, CatDetailsCard, [])))])
    else if petType == Str("bird") then
      Effect(Some(partial), [Render(h, Prose(BirdIntro), [])], [Later(1000, Post(target, Render(h, BirdAssessmentCard, [])))])
    else if petType == Str("exotic") then
      Effect(Some(partial), [Render(h, Prose(ExoticIntro), [])], [Later(1000, Post(target, Render(h, ExoticPetCard, [])))])
    else Effect(Some(partial), [], [])
  }

  // visa_status

  function VisaStatusSet(h: Host, p: Value, plan: Option<Plan>, target: Id): (e: Effect)
    ensures FollowUpsTo(e.later, target)
    ensures e.partial == Some(map[VisaStatus := Or(Get(p, "status"), Str("unknown"))])
    ensures |e.texts| == |e.later| <= 1
    ensures LeavesRequirements(e.partial)
  {
    var status := Or(Get(p, "status"), Str("unknown"));
    var partial := map[VisaStatus := status];
    var after := Some(MergePlan(plan, partial));
    if status == Str("need_work_visa") then
      var fromCity := Or(PlanValue(after, FromCity), Str("your origin"));
      var toCity := Or(PlanValue(after, ToCity), Str("your destination"));
      Effect(Some(partial), [Render(h, Prose(WorkVisaIntro), [Text(h, fromCity), Text(h, toCity)])],
             [Later(1000, Post(target, Render(h, WorkVisaCard, [Text(h, toCity)])))])
    else if status == Str("family_visa") then
      Effect(Some(partial), [Render(h, Prose(FamilyVisaIntro), [])], [Later(1000, Post(target, Render(h, FamilyVisaCard, [])))])
    else if status == Str("student_visa") then
      Effect(Some(partial), [Render(h, Prose(StudentVisaIntro), [])], [Later(1000, Post(target, Render(h, StudentVisaCard, [])))])
    else if status == Str("have_visa") then
      Effect(Some(partial), [Render(h, Prose(HaveVisaIntro), [])], [Later(1000, Post(target, Render(h, ArrivalChecklistCard, [])))])
    else Effect(Some(partial), [], [])
  }

  /** Any other status, `investment_visa` and `citizenship` among them, is recorded and gets no reply. */
  lemma OtherVisaStatusesSilent(h: Host, p: Value, plan: Option<Plan>, target: Id)
    requires Get(p, "status") !in {Str("need_work_visa"), Str("family_visa"), Str("student_visa"), Str("have_visa")}
    ensures VisaStatusSet(h, p, plan, target).texts == []
    ensures VisaStatusSet(h, p, plan, target).later == []
  {
  }

  // set_job_status / set_family_relationship / set_school_status / prepare_arrival_docs

  function ImmigrationDetailsSet(h: Host, p: Value): (e: Effect)
    ensures e.partial == Some(map[ImmigrationStatus := Or(Get(p, "details"), Str("immigration information"))])
    ensures e.later == [Later(1500, PartnerConnection)]
    ensures LeavesRequirements(e.partial)
  {
    Effect(Some(map[ImmigrationStatus := Or(Get(p, "details"), Str("immigration information"))]),
           [Render(h, Prose(ImmigrationCaptured), [])], [Later(1500, PartnerConnection)])
  }

  // select_accommodation_type / select_nyc_area

  function AccommodationTypeSet(h: Host, p: Value, target: Id): (e: Effect)
    ensures var details := Or(Get(p, "details"), Str("accommodation preference"));
      e.partial == Some(map[AccommodationType := details]) && |e.texts| == 1 && Contains(e.texts[0], Text(h, details))
    ensures FollowUpsTo(e.later, target)
    ensures LeavesRequirements(e.partial)
  {
    var details := Or(Get(p, "details"), Str("accommodation preference"));
    RenderIncludes(h, Prose(AccommodationTypeNoted), [Text(h, details)], 0);
    Effect(Some(map[AccommodationType := details]),
           [Render(h, Prose(AccommodationTypeNoted), [Text(h, details)])],
           [Later(1000, Post(target, Render(h, AccommodationBudgetCard, [])))])
  }

  // set_accommodation_budget / set_accommodation_duration

  /** What a stay choice writes: the details under the budget, the duration, both or neither. */
  function StayWritten(p: Value): (r: Option<Plan>)
    ensures r.Some? <==> Truthy(Or(Get(p, "budget"), Str(""))) || Truthy(Or(Get(p, "duration"), Str("")))
    ensures r.Some? ==> forall f :: f in r.value ==> f in {AccommodationBudget, AccommodationDuration}
  {
    var details := Or(Get(p, "details"), Str("preference"));
    var budget := Or(Get(p, "budget"), Str(""));
    var duration := Or(Get(p, "duration"), Str(""));
    if Truthy(budget) && Truthy(duration) then Some(map[AccommodationBudget := details, AccommodationDuration := details])
    else if Truthy(budget) then Some(map[AccommodationBudget := details])
    else if Truthy(duration) then Some(map[AccommodationDuration := details])
    else None
  }

  function StayPreferenceSet(h: Host, p: Value, plan: Option<Plan>): (e: Effect)
    ensures e.partial == StayWritten(p)
    ensures |e.texts| == 1 && e.later == []
    ensures LeavesRequirements(e.partial)
  {
    var details := Or(Get(p, "details"), Str("preference"));
    var budget := Or(Get(p, "budget"), Str(""));
    var partial := StayWritten(p);
    var after := Merged(plan, partial);
    var budgetRange := Or(PlanValue(after, AccommodationBudget), details);
    var stayDuration := Or(PlanValue(after, AccommodationDuration), details);
    var kind := if Truthy(budget) then "budget" else "timeline";
    var other := if Truthy(budget) then "timeline" else "budget";
    Effect(partial,
           [if Truthy(budgetRange) && Truthy(stayDuration) then Render(h, Prose(StayCaptured(true)), [kind, Text(h, details)])
            else Render(h, Prose(StayCaptured(false)), [kind, Text(h, details), other])], [])
  }

  /**
   * Both looked-up values fall back to the always-truthy details, so the reply
   * always claims budget and timeline are both known, even when only one of
   * them has ever been chosen.
   */
  lemma StayReplyAlwaysClaimsBoth(h: Host, p: Value, plan: Option<Plan>)
    ensures var details := Or(Get(p, "details"), Str("preference"));
      var kind := if Truthy(Or(Get(p, "budget"), Str(""))) then "budget" else "timeline";
      StayPreferenceSet(h, p, plan).texts == [Render(h, Prose(StayCaptured(true)), [kind, Text(h, details)])]
  {
    var details := Or(Get(p, "details"), Str("preference"));
    assert Truthy(details);
  }

  // temporary_housing

  function TemporaryHousingAsked(h: Host, plan: Option<Plan>, target: Id): (e: Effect)
    ensures var toCity := Or(PlanValue(plan, ToCity), Str("your destination"));
      |e.texts| == 1 && Contains(e.texts[0], Text(h, toCity))
    ensures FollowUpsTo(e.later, target) && e.partial.None? && |e.later| == 1
    ensures LeavesRequirements(e.partial)
  {
    var toCity := Or(PlanValue(plan, ToCity), Str("your destination"));
    var fromCity := Or(PlanValue(plan, FromCity), Str(""));
    RenderIncludes(h, Prose(TemporaryHousingIntro), [Text(h, toCity)], 0);
    Effect(None,
           [Render(h, Prose(TemporaryHousingIntro), [Text(h, toCity)])],
           [Later(1000, AccommodationContent(target, toCity, fromCity))])
  }

  // housing_type

  function HousingTypeSet(h: Host, p: Value): (e: Effect)
    ensures var preference := Or(Get(p, "preference"), Str(""));
      e.partial == Some(map[AccommodationType := preference]) && |e.texts| == 1 && Contains(e.texts[0], Text(h, preference))
    ensures e.later == []
    ensures LeavesRequirements(e.partial)
  {
    var preference := Or(Get(p, "preference"), Str(""));
    RenderIncludes(h, Prose(HousingTypeNoted), [Text(h, preference)], 0);
    Effect(Some(map[AccommodationType := preference]),
           [Render(h, Prose(HousingTypeNoted), [Text(h, preference)])], [])
  }

  // set_household_goods / shipping_type: the shipping chain

  /** One more line at the end of the plan's requirements, earlier ones kept. */
  function RequirementAdded(plan: Option<Plan>, line: string): Plan {
    map[SpecialRequirements := Arr(Requirements(plan) + [Str(line)])]
  }

  function HouseholdGoodsSet(h: Host, p: Value, plan: Option<Plan>, target: Id): (e: Effect)
    ensures var description := Or(Get(p, "description"), Str(""));
      e.partial == Some(RequirementAdded(plan, "Household: " + Text(h, description)))
    ensures FollowUpsTo(e.later, target)
    ensures KeepsRequirements(e.partial, plan)
  {
    var description := Or(Get(p, "description"), Str(""));
    var step := Or(Get(p, "step"), Str(""));
    Effect(Some(RequirementAdded(plan, "Household: " + Text(h, description))),
           [Render(h, Prose(GoodsNoted), [Text(h, description)])],
           if step == Str("size_selected") then [Later(1500, AskShippingType(target, Text(h, description)))] else [])
  }

  function ShippingTypeSet(h: Host, p: Value, plan: Option<Plan>, target: Id): (e: Effect)
    ensures var description := Or(Get(p, "description"), Str(""));
      e.partial == Some(RequirementAdded(plan, "Shipping: " + Text(h, description)))
    ensures FollowUpsTo(e.later, target)
    ensures KeepsRequirements(e.partial, plan)
  {
    var description := Or(Get(p, "description"), Str(""));
    var step := Or(Get(p, "step"), Str(""));
    Effect(Some(RequirementAdded(plan, "Shipping: " + Text(h, description))),
           [Render(h, Prose(ShippingNoted), [Text(h, description)])],
           if step == Str("type_selected") then [Later(1500, Post(target, Render(h, ShippingNextSteps, [])))] else [])
  }

  /**
   * The shipping chain: a household size chosen at the `size_selected` step
   * asks for the shipping type next, and a type chosen at `type_selected`
   * posts the next steps; at any other step neither queues anything.
   */
  lemma ShippingChain(h: Host, p: Value, plan: Option<Plan>, target: Id)
    ensures var description := Text(h, Or(Get(p, "description"), Str("")));
      HouseholdGoodsSet(h, p, plan, target).later ==
        (if Get(p, "step") == Str("size_selected") then [Later(1500, AskShippingType(target, description))] else [])
    ensures ShippingTypeSet(h, p, plan, target).later ==
        (if Get(p, "step") == Str("type_selected") then [Later(1500, Post(target, Render(h, ShippingNextSteps, [])))] else [])
  {
  }

  // select_move_type / set_move_type / choose_move_type

  function MoveTypeSet(h: Host, raw: string, p: Value, target: Id): (e: Effect)
    ensures var moveType := Or(Get(p, "type"), Or(Get(p, "value"), Str(LastPiece(raw, '_'))));
      e.partial == (if Truthy(moveType) then Some(map[MoveType := moveType]) else None)
    ensures e.partial.None? ==> e == Nothing
    ensures FollowUpsTo(e.later, target)
    ensures LeavesRequirements(e.partial)
  {
    var moveType := Or(Get(p, "type"), Or(Get(p, "value"), Str(LastPiece(raw, '_'))));
    if Truthy(moveType) then
      Effect(Some(map[MoveType := moveType]),
             [Render(h, Prose(MoveTypeNoted), [Text(h, moveType), Text(h, moveType)])],
             [Later(1000, MoveTypeFollowUp(target, moveType))])
    else Nothing
  }

  // set_move_timeline / confirm_move_date

  function MoveDateSet(h: Host, p: Value, target: Id): (e: Effect)
    ensures var date := Or(Get(p, "date"), Get(p, "value"));
      e.partial == (if Truthy(date) then Some(map[SelectedDate := date]) else None)
    ensures e.partial.None? ==> e == Nothing
    ensures FollowUpsTo(e.later, target)
    ensures LeavesRequirements(e.partial)
  {
    var date := Or(Get(p, "date"), Get(p, "value"));
    if Truthy(date) then
      Effect(Some(map[SelectedDate := date]), [Render(h, Prose(MoveDateConfirmed), [Text(h, date)])],
             [Later(1500, Post(target, Render(h, Prose(MoveNextSteps), [])))])
    else Nothing
  }

  // open_calendar

  function CalendarOpened(h: Host, p: Value): (e: Effect)
    ensures e.partial.None? && e.later == [] && |e.texts| == 1
    ensures Contains(e.texts[0], Text(h, Or(Get(p, "date"), Str("2025-09-01"))))
  {
    RenderIncludes(h, DatePickerCard, [Text(h, Or(Get(p, "date"), Str("2025-09-01")))], 0);
    Reply(Render(h, DatePickerCard, [Text(h, Or(Get(p, "date"), Str("2025-09-01")))]))
  }

  // service_workflow (the shipping card; immigration runs the canned workflow)

  function ServiceWorkflowReply(h: Host, service: Value): string {
    if service == Str("shipping") then Render(h, ShippingWorkflowCard, ["2", "people", "2", "2", "2"])
    else Text(h, service) + " workflow coming soon..."
  }

  // ---------------------------------------------------------------------
  // The default branch
  // ---------------------------------------------------------------------

  const NaturalNames: map<string, string> := map[
    "choose_location" := "choosing a location", "select_location" := "selecting a location",
    "pick_location" := "picking a location", "choose_date" := "choosing a date",
    "select_date" := "selecting a date", "pick_date" := "picking a date",
    "set_household_size" := "setting household size", "select_household_size" := "selecting household size",
    "choose_household_size" := "choosing household size", "set_move_type" := "selecting move type",
    "choose_move_type" := "choosing move type", "select_move_type" := "selecting move type"
  ]

  /** How the default branch names an intent it does not know. */
  function NaturalIntent(raw: string): (r: string)
    ensures raw in NaturalNames ==> r == NaturalNames[raw]
    ensures raw !in NaturalNames ==> r == ReplaceChar(raw, '_', ' ') && '_' !in r
  {
    if raw in NaturalNames then NaturalNames[raw] else ReplaceChar(raw, '_', ' ')
  }

  /** `payload.type === word || payload.value === word`, or the word in the raw intent name. */
  predicate Mentions(raw: string, data: Value, word: string) {
    Contains(Lower(raw), word) || Get(data, "type") == Str(word) || Get(data, "value") == Str(word)
  }

  /** `typeof data === 'object' && Object.keys(data).length > 0` */
  predicate HasKeys(data: Value) {
    (data.Obj? && |data.fields| > 0) || (data.Arr? && |data.items| > 0)
  }

  /** A field the default branch records, the value it records there, and its reply. */
  datatype Note = Note(field: PlanField, value: Value, reply: string)

  /** The move type the default branch reads from the intent name or the payload. */
  function MoveNoted(h: Host, raw: string, data: Value): (r: Option<Note>)
    ensures r.Some? <==> Mentions(raw, data, "interstate") || Mentions(raw, data, "international") || Mentions(raw, data, "local")
    ensures r.Some? ==> r.value.field == MoveType && r.value.value.Str?
  {
    if Mentions(raw, data, "interstate") then Some(Note(MoveType, Str("interstate"), Render(h, Prose(InterstateNoted), [])))
    else if Mentions(raw, data, "international") then
      Some(Note(MoveType, Str("international"), Render(h, Prose(InternationalNoted), [])))
    else if Mentions(raw, data, "local") then Some(Note(MoveType, Str("local"), Render(h, Prose(LocalNoted), [])))
    else None
  }

  /** Otherwise, a date or a household size in the payload. */
  function DetailNoted(h: Host, data: Value): (r: Option<Note>)
    ensures r.Some? <==> Truthy(Get(data, "date")) || Truthy(Get(data, "size"))
    ensures r.Some? ==> r.value.field in {SelectedDate, HouseholdSize}
  {
    if Truthy(Get(data, "date")) then
      Some(Note(SelectedDate, Get(data, "date"), Render(h, Prose(MoveDateConfirmed), [Text(h, Get(data, "date"))])))
    else if Truthy(Get(data, "size")) then
      Some(Note(HouseholdSize, Number(h, Get(data, "size")), Render(h, Prose(SizeHeard), [Text(h, Get(data, "size"))])))
    else None
  }

  /** What the default branch records and says, before deciding how to continue. */
  function Noted(h: Host, raw: string, data: Value): (r: Option<Note>)
    ensures r.Some? ==> r.value.field != SpecialRequirements
  {
    if MoveNoted(h, raw, data).Some? then MoveNoted(h, raw, data) else DetailNoted(h, data)
  }

  function Fallback(h: Host, raw: string, p: Value, target: Id): (e: Effect)
    ensures FollowUpsTo(e.later, target)
    ensures |e.texts| == 1
    ensures LeavesRequirements(e.partial)
  {
    var data := if Truthy(p) then p else Obj(map[]);
    var noted := Noted(h, raw, data);
    if noted.Some? then
      Effect(Some(map[noted.value.field := noted.value.value]), [noted.value.reply],
             [Later(1500, Continuation(target, raw, data, true))])
    else if HasKeys(data) then
      Effect(None, [Render(h, Prose(SelectionNoted), [])], [Later(1000, Continuation(target, raw, data, false))])
    else Reply(Render(h, Prose(HelpOffer), [NaturalIntent(raw)]))
  }

  /** An unknown intent with no payload gets the generic reply, its underscores read as spaces, and nothing else. */
  lemma UnknownIntentReply(h: Host, raw: string, target: Id)
    requires raw !in NaturalNames
    requires !Contains(Lower(raw), "interstate") && !Contains(Lower(raw), "international") && !Contains(Lower(raw), "local")
    ensures Fallback(h, raw, Undefined, target) == Reply(Render(h, Prose(HelpOffer), [ReplaceChar(raw, '_', ' ')]))
  {
    NothingNotedInEmptyPayload(h, raw);
  }

  lemma NothingNotedInEmptyPayload(h: Host, raw: string)
    requires !Contains(Lower(raw), "interstate") && !Contains(Lower(raw), "international") && !Contains(Lower(raw), "local")
    ensures Noted(h, raw, Obj(map[])).None?
  {
    assert MoveNoted(h, raw, Obj(map[])).None?;
  }

  // ---------------------------------------------------------------------
  // Dispatch
  // ---------------------------------------------------------------------

  /**
   * The merge keeps every earlier special requirement at the front of the
   * list: it leaves the list alone, or writes a list that extends it.
   */
  predicate KeepsRequirements(partial: Option<Plan>, plan: Option<Plan>) {
    partial.Some? && SpecialRequirements in partial.value ==>
      var v := partial.value[SpecialRequirements];
      v.Arr? && |Requirements(plan)| <= |v.items| && v.items[..|Requirements(plan)|] == Requirements(plan)
  }

  /** The merge does not write the special requirements. */
  predicate LeavesRequirements(partial: Option<Plan>) {
    partial.Some? ==> SpecialRequirements !in partial.value
  }

  /**
   * The effect of every branch that is not run as a method, on the plan as
   * it stands after the profile capture. `raw` is the intent as received,
   * which the default and move-type branches read; `picker` is the page's
   * date input.
   */
  function Reaction(h: Host, b: Branch, raw: string, p: Value, plan: Option<Plan>, target: Id, picker: Option<string>): (e: Effect)
    requires !b.Active()
    ensures FollowUpsTo(e.later, target)
    ensures KeepsRequirements(e.partial, plan)
  {
    if b.Personal() then PersonalReaction(h, b, p, plan, target, picker)
    else PlanningReaction(h, b, raw, p, plan, target)
  }

  /** The fixed replies and the branches about dates, household, visa and pets. */
  function PersonalReaction(h: Host, b: Branch, p: Value, plan: Option<Plan>, target: Id, picker: Option<string>): (e: Effect)
    requires b.Personal()
    ensures FollowUpsTo(e.later, target)
    ensures KeepsRequirements(e.partial, plan)
  {
    match b
    case OnFixed(phrase) => Reply(Render(h, Prose(phrase), []))
    case OnCalendar => CalendarOpened(h, p)
    case OnDate => DateChosen(h, p, picker)
    case OnHouseholdSize(confirming) => HouseholdSizeGiven(h, p, confirming)
    case OnVisaChoice => VisaChosen(p)
    case OnPetType => PetTypeSet(h, p, target)
    case OnVisaStatus => VisaStatusSet(h, p, plan, target)
    case OnImmigrationDetails => ImmigrationDetailsSet(h, p)
  }

  /** The branches about housing, shipping and the move, and the default. */
  function PlanningReaction(h: Host, b: Branch, raw: string, p: Value, plan: Option<Plan>, target: Id): (e: Effect)
    requires !b.Active() && !b.Personal()
    ensures FollowUpsTo(e.later, target)
    ensures KeepsRequirements(e.partial, plan)
  {
    match b
    case OnAccommodationType => AccommodationTypeSet(h, p, target)
    case OnStay => StayPreferenceSet(h, p, plan)
    case OnTemporaryHousing => TemporaryHousingAsked(h, plan, target)
    case OnHousingType => HousingTypeSet(h, p)
    case OnHouseholdGoods => HouseholdGoodsSet(h, p, plan, target)
    case OnShippingType => ShippingTypeSet(h, p, plan, target)
    case OnMoveType => MoveTypeSet(h, raw, p, target)
    case OnMoveDate => MoveDateSet(h, p, target)
    case OnOther => Fallback(h, raw, p, target)
  }
}
