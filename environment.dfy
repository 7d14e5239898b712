/**
 * What the model takes from outside: library and browser functions as
 * uninterpreted arrows (JSON, DOM text extraction, number and date formatting),
 * and the literal segments of every HTML card and prompt template, which the
 * model renders as opaque text around their interpolated arguments.
 */
module Environment {
  import opened Wrappers
  import opened Js

  /** Every multi-line HTML card or prompt the system posts or sends; its text is opaque. */
  datatype Template =
    // scripted workflow cards
    | PetAssessmentCard | HouseholdSizeCard | ShippingTypeCard | VisaAssessmentCard | HousingSearchCard
    // cards of the fixed workflows library
    | MovingQuotesCard | InventoryCard | ImmigrationWorkflowCard | AllServicesCard
    | ShippingWorkflowCard | HouseholdSizeSelectionCard | DatePickerCard
    // follow-up cards posted by the dispatcher
    | DogDetailsCard | CatDetailsCard | BirdAssessmentCard | ExoticPetCard
    | WorkVisaCard | FamilyVisaCard | StudentVisaCard | ArrivalChecklistCard
    | AccommodationBudgetCard | ShippingNextSteps
    // hotel search
    | SearchingCard | SearchFailedCard | LoadingCard | FailedCard
    // prompts sent to the model gateway: the system instructions of each
    // generation, a thread's service context ("general" for the general planning context),
    // and the prompts themselves
    | SystemInstructions | BookingInstructions | ServiceContext(service: string)
    | SearchFactsInstructions | RenderPrompt | AccommodationPrompt | ContinuationPrompt(handled: bool)
    // the dispatcher's prose replies
    | Prose(phrase: Phrase)

  /**
   * The dispatcher's prose replies. Their wording is a fixed sentence or two
   * around the values they mention; the model keeps the values (the template's
   * arguments) and treats the wording like any other template text.
   */
  datatype Phrase =
    // the scripted workflows' greetings
    | WelcomeGreeting | PetGreeting | ShippingGreeting | ImmigrationGreeting | HousingGreeting
    | AccommodationGreeting | FinanceGreeting | HealthcareGreeting | TransportationGreeting
    | EducationGreeting | UtilitiesGreeting | InsuranceGreeting | LifestyleGreeting
    // replies that mention nothing
    | PetsWelcome | ScheduleMoveStarted | PartnerIntro | ConsultationOffer | PetDetailsOffer | SurveyOffer
    | MovingWelcome | ImmigrationWelcome | PetRelocationWelcome | FinanceWelcome | HealthcareWelcome
    | TransportationWelcome | EducationWelcome | HousingWelcome
    | FlexibleDates | FamilyVisaIntro | StudentVisaIntro | HaveVisaIntro
    | DogIntro | CatIntro | BirdIntro | ExoticIntro | ImmigrationCaptured | MoveNextSteps
    | InterstateNoted | InternationalNoted | LocalNoted | SelectionNoted
    | InterstateFollowUp | InternationalFollowUp | LocalFollowUp
    // replies around values: the date, the size, the cities, the choice made
    | DateSet | SizeNoted | WorkVisaIntro | AccommodationTypeNoted
    | StayCaptured(bothKnown: bool) | TemporaryHousingIntro | HousingTypeNoted | GoodsNoted | ShippingNoted
    | MoveTypeNoted | MoveDateConfirmed | SizeHeard | HelpOffer | StayOptionsFallback

  /** The environment: library functions the model does not interpret. */
  datatype Host = Host(
    parseJson: string -> Option<Value>,        // JSON.parse; None where it throws
    stringify: Value -> string,                // JSON.stringify
    stripHtml: string -> string,               // textContent of a DOM node holding the html
    numberOfString: string -> Option<real>,    // Number(string); None for NaN
    showNumber: real -> string,                // String(number)
    formatDate: string -> string,              // new Date(s).toLocaleDateString(...)
    fragment: (Template, nat) -> string)       // the k-th literal segment of a template

  function Number(h: Host, v: Value): (r: Value)
    ensures r.Num? || r.NaN?
  {
    ToNumber(v, h.numberOfString, h.showNumber)
  }

  function Text(h: Host, v: Value): string {
    ToText(v, h.showNumber)
  }

  /** A template literal: literal segments interleaved with the interpolated arguments. */
  function Render(h: Host, t: Template, args: seq<string>): string {
    RenderFrom(h, t, args, 0)
  }

  function RenderFrom(h: Host, t: Template, args: seq<string>, k: nat): string
    requires k <= |args|
    decreases |args| - k
  {
    if k == |args| then h.fragment(t, k)
    else h.fragment(t, k) + args[k] + RenderFrom(h, t, args, k + 1)
  }

  /** Every interpolated argument appears in the rendered text. */
  lemma {:induction false} RenderIncludes(h: Host, t: Template, args: seq<string>, k: nat)
    requires k < |args|
    ensures Contains(Render(h, t, args), args[k])
  {
    RenderFromIncludes(h, t, args, 0, k);
  }

  lemma {:induction false} RenderFromIncludes(h: Host, t: Template, args: seq<string>, j: nat, k: nat)
    requires j <= k < |args|
    ensures Contains(RenderFrom(h, t, args, j), args[k])
    decreases k - j
  {
    var rest := RenderFrom(h, t, args, j + 1);
    assert RenderFrom(h, t, args, j) == h.fragment(t, j) + args[j] + rest;
    if j == k {
      ContainsMiddle(h.fragment(t, j), args[j], rest);
    } else {
      RenderFromIncludes(h, t, args, j + 1, k);
      ContainsAfter(h.fragment(t, j) + args[j], rest, args[k]);
    }
  }
}
