/**
 * The dispatcher's tables: which service an intent belongs to, the replies
 * that carry no data, and which branch of its `switch` an intent takes.
 */
module IntentTables {
  import opened Wrappers
  import opened Environment

  // ---------------------------------------------------------------------
  // Intent -> service
  // ---------------------------------------------------------------------

  const ServiceMap: map<string, string> := map[
    "service_workflow" := "general",
    "start_shipping" := "shipping", "shipping_workflow" := "shipping", "moving_shipping" := "shipping",
    "moving_and_shipping" := "shipping", "moving" := "shipping", "shipping" := "shipping",
    "get_moving_quotes" := "shipping", "start_inventory" := "shipping", "schedule_move" := "shipping",
    "visa_workflow" := "immigration", "immigration_workflow" := "immigration", "visa_immigration" := "immigration",
    "visa_and_immigration" := "immigration", "immigration" := "immigration", "select_visa" := "immigration",
    "housing_workflow" := "housing", "housing" := "housing",
    "start_hotel_search" := "accommodation", "search_hotels" := "accommodation", "choose_hotel" := "accommodation",
    "temporary_housing" := "accommodation", "select_accommodation_type" := "accommodation",
    "select_nyc_area" := "accommodation", "set_accommodation_budget" := "accommodation",
    "set_accommodation_duration" := "accommodation",
    "pet_workflow" := "pets", "pet_relocation" := "pets", "pets" := "pets", "select_pets" := "pets",
    "set_pet_type" := "pets",
    "finance_workflow" := "finance", "finance_taxes" := "finance", "finance_and_taxes" := "finance",
    "finance" := "finance",
    "healthcare_workflow" := "healthcare", "healthcare" := "healthcare",
    "transportation_workflow" := "transportation", "transportation" := "transportation",
    "education_workflow" := "education", "education" := "education",
    "visa_status" := "immigration", "immigration_consultation" := "immigration",
    "immigration_assessment" := "immigration", "pet_details_form" := "pets",
    "set_household_goods" := "shipping", "household_survey" := "shipping", "shipping_type" := "shipping",
    "housing_type" := "housing", "housing_preferences" := "housing",
    "select_move_date" := "general", "move_date" := "general"
  ]

  /** `getServiceFromIntent`: the table's service, or none for a name it does not list. */
  function ServiceFromIntent(i: string): (r: Option<string>)
    ensures r.Some? <==> i in ServiceMap
    ensures r.Some? ==> r.value == ServiceMap[i]
  {
    if i in ServiceMap then Some(ServiceMap[i]) else None
  }

  // ---------------------------------------------------------------------
  // The switch
  // ---------------------------------------------------------------------

  /** The cases of the dispatcher's `switch`, each group of labels sharing a body as one branch. */
  datatype Branch =
    | OnSearchHotels | OnChooseHotel | OnSelectHotel | OnOpenUrl | OnPayNow
    | OnMovingQuotes | OnInventory | OnAllServices | OnServiceWorkflow
    | OnFixed(phrase: Phrase) | OnCalendar | OnDate | OnHouseholdSize(confirming: bool) | OnVisaChoice
    | OnPetType | OnVisaStatus | OnImmigrationDetails | OnAccommodationType | OnStay
    | OnTemporaryHousing | OnHousingType | OnHouseholdGoods | OnShippingType | OnMoveType | OnMoveDate
    | OnOther
  {
    /** The branches that book, search, open pages or run a canned workflow; the dispatcher runs them as methods. */
    predicate Active() {
      OnSearchHotels? || OnChooseHotel? || OnSelectHotel? || OnOpenUrl? || OnPayNow?
      || OnMovingQuotes? || OnInventory? || OnAllServices? || OnServiceWorkflow?
    }

    /** The fixed replies and the branches about dates, household size, visas and pets. */
    predicate Personal() {
      OnFixed? || OnCalendar? || OnDate? || OnHouseholdSize? || OnVisaChoice?
      || OnPetType? || OnVisaStatus? || OnImmigrationDetails?
    }
  }

  /** The case labels of the `switch` (keys are unique, so their order is immaterial); a label listed twice is taken by its first case. */
  const Switch: map<string, Branch> := map[
    "choose_date" := OnDate, "select_date" := OnDate,
    "set_household" := OnHouseholdSize(false), "select_household_size" := OnHouseholdSize(false),
    "choose_household" := OnHouseholdSize(false), "household_size" := OnHouseholdSize(false),
    "select_pets" := OnFixed(PetsWelcome), "choose_pets" := OnFixed(PetsWelcome), "pets" := OnFixed(PetsWelcome),
    "select_visa" := OnVisaChoice, "choose_visa" := OnVisaChoice,
    "get_moving_quotes" := OnMovingQuotes,
    "start_inventory" := OnInventory,
    "schedule_move" := OnFixed(ScheduleMoveStarted),
    "show_all_services" := OnAllServices,
    "connect_immigration_partner" := OnFixed(PartnerIntro), "connect_with_specialist" := OnFixed(PartnerIntro),
    "immigration_specialist" := OnFixed(PartnerIntro),
    "service_workflow" := OnServiceWorkflow,
    "confirm_household_size" := OnHouseholdSize(true),
    "set_children" := OnPetType, "set_work_status" := OnPetType, "set_pet_type" := OnPetType,
    "visa_status" := OnVisaStatus,
    "immigration_consultation" := OnFixed(ConsultationOffer),
    "set_job_status" := OnImmigrationDetails, "set_family_relationship" := OnImmigrationDetails,
    "set_school_status" := OnImmigrationDetails, "prepare_arrival_docs" := OnImmigrationDetails,
    "select_accommodation_type" := OnAccommodationType, "select_nyc_area" := OnAccommodationType,
    "set_accommodation_budget" := OnStay, "set_accommodation_duration" := OnStay,
    "pet_details_form" := OnFixed(PetDetailsOffer),
    "set_household_goods" := OnHouseholdGoods,
    "household_survey" := OnFixed(SurveyOffer),
    "shipping_type" := OnShippingType,
    "housing_type" := OnHousingType,
    "moving_shipping" := OnFixed(MovingWelcome), "moving_and_shipping" := OnFixed(MovingWelcome),
    "moving" := OnFixed(MovingWelcome), "shipping" := OnFixed(MovingWelcome),
    "visa_immigration" := OnFixed(ImmigrationWelcome), "visa_and_immigration" := OnFixed(ImmigrationWelcome),
    "immigration" := OnFixed(ImmigrationWelcome),
    "pet_relocation" := OnFixed(PetRelocationWelcome),
    "temporary_housing" := OnTemporaryHousing,
    "finance_taxes" := OnFixed(FinanceWelcome), "finance_and_taxes" := OnFixed(FinanceWelcome),
    "finance" := OnFixed(FinanceWelcome),
    "healthcare" := OnFixed(HealthcareWelcome),
    "transportation" := OnFixed(TransportationWelcome),
    "education" := OnFixed(EducationWelcome),
    "housing" := OnFixed(HousingWelcome),
    "select_move_type" := OnMoveType, "set_move_type" := OnMoveType, "choose_move_type" := OnMoveType,
    "set_move_timeline" := OnMoveDate, "confirm_move_date" := OnMoveDate,
    // the labels the single-stream dispatcher shares, listed last so that
    // lookups of them stay shallow
    "search_hotels" := OnSearchHotels, "start_search" := OnSearchHotels, "start_hotel_search" := OnSearchHotels,
    "choose_hotel" := OnChooseHotel,
    "select_hotel" := OnSelectHotel, "select" := OnSelectHotel,
    "open_url" := OnOpenUrl,
    "pay_now" := OnPayNow,
    "open_calendar" := OnCalendar
  ]

  /** The branch the `switch` takes for a normalized intent; `default` for a label it does not list. */
  function Classify(i: string): Branch {
    if i in Switch then Switch[i] else OnOther
  }
}
