/**
 * The scripted per-service workflows: each posts a greeting to the service's
 * thread and, for pets, shipping, immigration and housing, a choice card one
 * second later. The library keeps no state of its own; its only effects are
 * posts to the store, immediate or queued.
 */
module ServiceWorkflows {
  import opened Wrappers
  import opened Js
  import opened Environment
  import opened Timeline
  import opened SessionStore

  /** A button on a card: the intent it dispatches and the payload it carries. */
  datatype Choice = Choice(intent: string, payload: Value)

  function SizeChoice(size: string, description: string): Choice {
    Choice("set_household_goods", Obj(map["size" := Str(size), "description" := Str(description), "step" := Str("size_selected")]))
  }

  function TypeChoice(kind: string, description: string): Choice {
    Choice("shipping_type", Obj(map["type" := Str(kind), "description" := Str(description), "step" := Str("type_selected")]))
  }

  function VisaChoice(status: string, details: string): Choice {
    Choice("visa_status", Obj(map["status" := Str(status), "details" := Str(details)]))
  }

  /** The household-size question's buttons. */
  const HouseholdSizeChoices: seq<Choice> := [
    SizeChoice("studio", "Studio apartment (1-2 rooms)"),
    SizeChoice("1br", "1-bedroom apartment"),
    SizeChoice("2br", "2-bedroom apartment"),
    SizeChoice("3br", "3-bedroom house"),
    SizeChoice("4br", "4+ bedroom house"),
    Choice("household_survey", Obj(map["action" := Str("virtual_survey"), "step" := Str("survey_selected")]))
  ]

  /** The shipping-type question's buttons. */
  const ShippingTypeChoices: seq<Choice> := [
    TypeChoice("full_household", "Complete household"),
    TypeChoice("essentials_only", "Essentials only"),
    TypeChoice("furniture_only", "Furniture only"),
    TypeChoice("documents_valuables", "Documents & valuables")
  ]

  /** The immigration assessment's buttons. */
  const VisaChoices: seq<Choice> := [
    VisaChoice("need_work_visa", "Require work visa/permit"),
    VisaChoice("family_visa", "Family reunification visa"),
    VisaChoice("student_visa", "Student visa application"),
    VisaChoice("investment_visa", "Investment/entrepreneur visa"),
    VisaChoice("have_visa", "Already have valid visa"),
    VisaChoice("citizenship", "Citizenship/permanent residency"),
    Choice("immigration_consultation", Obj(map["action" := Str("schedule_consultation")]))
  ]

  /** How a button appears in a card's markup. */
  function ChoiceMarkup(h: Host, c: Choice): string {
    "data-intent=\"" + c.intent + "\" data-payload='" + h.stringify(c.payload) + "'"
  }

  function Markups(h: Host, cs: seq<Choice>): (r: seq<string>)
    ensures |r| == |cs| && forall k :: 0 <= k < |cs| ==> r[k] == ChoiceMarkup(h, cs[k])
  {
    if cs == [] then [] else [ChoiceMarkup(h, cs[0])] + Markups(h, cs[1..])
  }

  function HouseholdSizeQuestion(h: Host): string {
    Render(h, HouseholdSizeCard, Markups(h, HouseholdSizeChoices))
  }

  function ShippingTypeQuestion(h: Host, householdSize: string): string {
    Render(h, ShippingTypeCard, [householdSize] + Markups(h, ShippingTypeChoices))
  }

  function VisaAssessment(h: Host): string {
    Render(h, VisaAssessmentCard, Markups(h, VisaChoices))
  }

  /** The services with a workflow of their own; any other service gets the welcome line. */
  const NamedWorkflows: set<string> := {
    "pets", "shipping", "immigration", "housing", "accommodation", "finance",
    "healthcare", "transportation", "education", "utilities", "insurance", "lifestyle"
  }

  /** The services whose workflow follows its greeting with a choice card. */
  const CardWorkflows: set<string> := {"pets", "shipping", "immigration", "housing"}

  /** The first message of each service's workflow. */
  function GreetingPhrase(service: string): Phrase {
    match service
    case "pets" => PetGreeting
    case "shipping" => ShippingGreeting
    case "immigration" => ImmigrationGreeting
    case "housing" => HousingGreeting
    case "accommodation" => AccommodationGreeting
    case "finance" => FinanceGreeting
    case "healthcare" => HealthcareGreeting
    case "transportation" => TransportationGreeting
    case "education" => EducationGreeting
    case "utilities" => UtilitiesGreeting
    case "insurance" => InsuranceGreeting
    case "lifestyle" => LifestyleGreeting
    case _ => WelcomeGreeting
  }

  function Greeting(h: Host, service: string): string {
    Render(h, Prose(GreetingPhrase(service)), [])
  }

  /** The card a scripted workflow posts one second after its greeting. */
  function FollowUpCard(h: Host, service: string): string
    requires service in CardWorkflows
  {
    match service
    case "pets" => Render(h, PetAssessmentCard, [])
    case "shipping" => HouseholdSizeQuestion(h)
    case "immigration" => VisaAssessment(h)
    case _ => Render(h, HousingSearchCard, [])
  }

  /** The welcome line is what a service gets exactly when it has no workflow of its own. */
  lemma WelcomeOnlyWithoutWorkflow(service: string)
    ensures GreetingPhrase(service) == WelcomeGreeting <==> service !in NamedWorkflows
  {
  }

  // ---------------------------------------------------------------------
  // The workflows
  // ---------------------------------------------------------------------

  /**
   * `startServiceWorkflow(service, threadId)`: the service's greeting goes to
   * `threadId` now; for the four card workflows one more post to `threadId` is
   * queued 1000 ms later; nothing else changes.
   */
  method StartServiceWorkflow(s: Store, service: string, threadId: Id)
    requires s.Valid()
    modifies s
    ensures s.Valid()
    ensures Appended(old(s.messages), s.messages, Gullie, [Greeting(s.host, service)], Addressee(Some(threadId), s.activeThreadId))
    ensures service in CardWorkflows ==>
              s.timers == old(s.timers) + [Timer(s.now + 1000, Post(threadId, FollowUpCard(s.host, service)))]
    ensures service !in CardWorkflows ==> s.timers == old(s.timers)
    ensures s.steps == old(s.steps) && s.plan == old(s.plan)
    ensures s.threads == TouchedBy(old(s.threads), Addressee(Some(threadId), s.activeThreadId), [Greeting(s.host, service)], s.activeThreadId, s.now, s.host.stripHtml)
    ensures s.activeThreadId == old(s.activeThreadId) && s.now == old(s.now)
  {
    if service in CardWorkflows {
      // the pet, shipping, immigration and housing starts below, each a `GreetThenCard` with its own card
      GreetThenCard(s, Greeting(s.host, service), FollowUpCard(s.host, service), threadId);
    } else {
      Say(s, Greeting(s.host, service), threadId);  // the other named workflows, and the welcome line
    }
  }

  /** `gullieSay(text, threadId)`: the one effect every workflow has. */
  method Say(s: Store, text: string, threadId: Id)
    requires s.Valid()
    modifies s
    ensures s.Valid()
    ensures Appended(old(s.messages), s.messages, Gullie, [text], Addressee(Some(threadId), s.activeThreadId))
    ensures s.timers == old(s.timers) && s.steps == old(s.steps) && s.plan == old(s.plan)
    ensures s.activeThreadId == old(s.activeThreadId) && s.now == old(s.now)
    ensures s.threads == TouchedBy(old(s.threads), Addressee(Some(threadId), s.activeThreadId), [text], s.activeThreadId, s.now, s.host.stripHtml)
  {
    var m := s.GullieSay(text, Some(threadId));
    TouchedByOne(old(s.threads), m.threadId, text, s.activeThreadId, s.now, s.host.stripHtml);
  }

  /** Greeting now, then a card after `delay`, both to `threadId`. */
  method GreetThenCard(s: Store, greeting: string, card: string, threadId: Id)
    requires s.Valid()
    modifies s
    ensures s.Valid()
    ensures Appended(old(s.messages), s.messages, Gullie, [greeting], Addressee(Some(threadId), s.activeThreadId))
    ensures s.timers == old(s.timers) + [Timer(s.now + 1000, Post(threadId, card))]
    ensures s.steps == old(s.steps) && s.plan == old(s.plan)
    ensures s.activeThreadId == old(s.activeThreadId) && s.now == old(s.now)
    ensures s.threads == TouchedBy(old(s.threads), Addressee(Some(threadId), s.activeThreadId), [greeting], s.activeThreadId, s.now, s.host.stripHtml)
  {
    Say(s, greeting, threadId);
    s.SetTimeout(1000, Post(threadId, card));
  }

  method StartPetRelocationWorkflow(s: Store, threadId: Id)
    requires s.Valid()
    modifies s
    ensures s.Valid()
    ensures Appended(old(s.messages), s.messages, Gullie, [Greeting(s.host, "pets")], Addressee(Some(threadId), s.activeThreadId))
    ensures s.timers == old(s.timers) + [Timer(s.now + 1000, Post(threadId, Render(s.host, PetAssessmentCard, [])))]
    ensures s.steps == old(s.steps) && s.plan == old(s.plan)
    ensures s.activeThreadId == old(s.activeThreadId) && s.now == old(s.now)
    ensures s.threads == TouchedBy(old(s.threads), Addressee(Some(threadId), s.activeThreadId), [Greeting(s.host, "pets")], s.activeThreadId, s.now, s.host.stripHtml)
  {
    GreetThenCard(s, Greeting(s.host, "pets"), Render(s.host, PetAssessmentCard, []), threadId);
  }

  /** The shipping chain's first link: greeting, then the household-size question. */
  method StartShippingWorkflow(s: Store, threadId: Id)
    requires s.Valid()
    modifies s
    ensures s.Valid()
    ensures Appended(old(s.messages), s.messages, Gullie, [Greeting(s.host, "shipping")], Addressee(Some(threadId), s.activeThreadId))
    ensures s.timers == old(s.timers) + [Timer(s.now + 1000, Post(threadId, HouseholdSizeQuestion(s.host)))]
    ensures s.steps == old(s.steps) && s.plan == old(s.plan)
    ensures s.activeThreadId == old(s.activeThreadId) && s.now == old(s.now)
    ensures s.threads == TouchedBy(old(s.threads), Addressee(Some(threadId), s.activeThreadId), [Greeting(s.host, "shipping")], s.activeThreadId, s.now, s.host.stripHtml)
  {
    GreetThenCard(s, Greeting(s.host, "shipping"), HouseholdSizeQuestion(s.host), threadId);
  }

  method StartImmigrationWorkflow(s: Store, threadId: Id)
    requires s.Valid()
    modifies s
    ensures s.Valid()
    ensures Appended(old(s.messages), s.messages, Gullie, [Greeting(s.host, "immigration")], Addressee(Some(threadId), s.activeThreadId))
    ensures s.timers == old(s.timers) + [Timer(s.now + 1000, Post(threadId, VisaAssessment(s.host)))]
    ensures s.steps == old(s.steps) && s.plan == old(s.plan)
    ensures s.activeThreadId == old(s.activeThreadId) && s.now == old(s.now)
    ensures s.threads == TouchedBy(old(s.threads), Addressee(Some(threadId), s.activeThreadId), [Greeting(s.host, "immigration")], s.activeThreadId, s.now, s.host.stripHtml)
  {
    GreetThenCard(s, Greeting(s.host, "immigration"), VisaAssessment(s.host), threadId);
  }

  method StartHousingWorkflow(s: Store, threadId: Id)
    requires s.Valid()
    modifies s
    ensures s.Valid()
    ensures Appended(old(s.messages), s.messages, Gullie, [Greeting(s.host, "housing")], Addressee(Some(threadId), s.activeThreadId))
    ensures s.timers == old(s.timers) + [Timer(s.now + 1000, Post(threadId, Render(s.host, HousingSearchCard, [])))]
    ensures s.steps == old(s.steps) && s.plan == old(s.plan)
    ensures s.activeThreadId == old(s.activeThreadId) && s.now == old(s.now)
    ensures s.threads == TouchedBy(old(s.threads), Addressee(Some(threadId), s.activeThreadId), [Greeting(s.host, "housing")], s.activeThreadId, s.now, s.host.stripHtml)
  {
    GreetThenCard(s, Greeting(s.host, "housing"), Render(s.host, HousingSearchCard, []), threadId);
  }

  /** `askHouseholdSizeQuestion(threadId)`: one card offering the household sizes. */
  method AskHouseholdSizeQuestion(s: Store, threadId: Id)
    requires s.Valid()
    modifies s
    ensures s.Valid()
    ensures Appended(old(s.messages), s.messages, Gullie, [HouseholdSizeQuestion(s.host)], Addressee(Some(threadId), s.activeThreadId))
    ensures s.timers == old(s.timers) && s.steps == old(s.steps) && s.plan == old(s.plan)
    ensures s.activeThreadId == old(s.activeThreadId) && s.now == old(s.now)
    ensures s.threads == TouchedBy(old(s.threads), Addressee(Some(threadId), s.activeThreadId), [HouseholdSizeQuestion(s.host)], s.activeThreadId, s.now, s.host.stripHtml)
  {
    Say(s, HouseholdSizeQuestion(s.host), threadId);
  }

  /** `askShippingTypeQuestion(threadId, householdSize)`: one card naming the size and offering the shipping types. */
  method AskShippingTypeQuestion(s: Store, threadId: Id, householdSize: string)
    requires s.Valid()
    modifies s
    ensures s.Valid()
    ensures Appended(old(s.messages), s.messages, Gullie, [ShippingTypeQuestion(s.host, householdSize)], Addressee(Some(threadId), s.activeThreadId))
    ensures Contains(s.messages[|s.messages| - 1].text, householdSize)
    ensures s.timers == old(s.timers) && s.steps == old(s.steps) && s.plan == old(s.plan)
    ensures s.activeThreadId == old(s.activeThreadId) && s.now == old(s.now)
    ensures s.threads == TouchedBy(old(s.threads), Addressee(Some(threadId), s.activeThreadId), [ShippingTypeQuestion(s.host, householdSize)], s.activeThreadId, s.now, s.host.stripHtml)
  {
    Say(s, ShippingTypeQuestion(s.host, householdSize), threadId);
    RenderIncludes(s.host, ShippingTypeCard, [householdSize] + Markups(s.host, ShippingTypeChoices), 0);
  }

  // ---------------------------------------------------------------------
  // The cards' choices
  // ---------------------------------------------------------------------

  /** The household-size question offers five sizes that advance the shipping chain, and the survey. */
  lemma HouseholdSizeChoicesAdvance()
    ensures |HouseholdSizeChoices| == 6
    ensures forall k :: 0 <= k < 5 ==>
              HouseholdSizeChoices[k].intent == "set_household_goods"
              && Get(HouseholdSizeChoices[k].payload, "step") == Str("size_selected")
              && Get(HouseholdSizeChoices[k].payload, "description").Str?
    ensures HouseholdSizeChoices[5].intent == "household_survey"
            && Get(HouseholdSizeChoices[5].payload, "step") == Str("survey_selected")
  {
  }

  /** The shipping-type question offers four types, each closing the shipping chain. */
  lemma ShippingTypeChoicesAdvance()
    ensures |ShippingTypeChoices| == 4
    ensures forall c :: c in ShippingTypeChoices ==>
              c.intent == "shipping_type" && Get(c.payload, "step") == Str("type_selected")
              && Get(c.payload, "description").Str?
  {
  }

  /** Every button of a card is present in the posted markup. */
  lemma {:induction false} ChoicesAppearInCard(h: Host, householdSize: string, k: nat)
    requires k < |ShippingTypeChoices|
    ensures Contains(ShippingTypeQuestion(h, householdSize), ChoiceMarkup(h, ShippingTypeChoices[k]))
    ensures k < |HouseholdSizeChoices| ==> Contains(HouseholdSizeQuestion(h), ChoiceMarkup(h, HouseholdSizeChoices[k]))
  {
    var args := [householdSize] + Markups(h, ShippingTypeChoices);
    assert args[k + 1] == ChoiceMarkup(h, ShippingTypeChoices[k]);
    RenderIncludes(h, ShippingTypeCard, args, k + 1);
    if k < |HouseholdSizeChoices| {
      RenderIncludes(h, HouseholdSizeCard, Markups(h, HouseholdSizeChoices), k);
    }
  }
}
