/**
 * Timeline steps: the cards shown between chat messages. Both stores keep an
 * ordered list of steps keyed by id, merge into an existing entry on upsert and
 * mark an entry completed; the list operations are specified here once.
 */
module Timeline {
  import opened Wrappers
  import opened Js

  /**
   * Identifiers of messages, steps and threads. The source draws them from
   * `Math.random` and `Date.now` as `prefix_random_time`; the model issues
   * `prefix_n` from a per-store counter, and the one literal id is `'general'`.
   */
  datatype Id = Fixed(text: string) | Issued(prefix: string, n: nat)

  function IdText(id: Id): (r: string)
    ensures id.Issued? ==> StartsWith(r, id.prefix + "_")
    ensures id.Fixed? ==> r == id.text
  {
    match id
    case Fixed(t) => t
    case Issued(p, n) => p + "_" + NatToString(n)
  }

  datatype Status = InProgress | Completed | Idle

  datatype Kind = GenericText | MapCard | HotelSelection | BookingSummary | PaymentForm | Confirmation | HtmlCard

  function KindName(k: Kind): string {
    match k
    case GenericText => "GenericText"
    case MapCard => "MapCard"
    case HotelSelection => "HotelSelection"
    case BookingSummary => "BookingSummary"
    case PaymentForm => "PaymentForm"
    case Confirmation => "Confirmation"
    case HtmlCard => "HtmlCard"
  }

  datatype GeoPoint = GeoPoint(lat: real, lng: real)

  datatype Venue = Venue(name: string, address: string, location: GeoPoint)

  datatype Hotel = Hotel(
    id: string, name: string, price: real, location: GeoPoint, address: string,
    distanceMeters: Option<int>, walkMinutes: Option<int>)

  /** The payload of a step; the source's `kind` tag is determined by it. */
  datatype StepData =
    | GenericTextData(text: string)
    | MapCardData(venue: Venue, hotels: seq<Hotel>, radiusMeters: int)
    | HotelSelectionData(hotels: seq<Hotel>, budget: Option<real>)
    | BookingSummaryData(venue: Venue, hotel: Hotel, date: Option<string>)
    | PaymentFormData(amount: real, hotel: Hotel)
    | ConfirmationData(reference: string, hotel: Hotel)
    | HtmlCardData(html: string, height: Option<int>)

  function KindOf(d: StepData): Kind {
    match d
    case GenericTextData(_) => GenericText
    case MapCardData(_, _, _) => MapCard
    case HotelSelectionData(_, _) => HotelSelection
    case BookingSummaryData(_, _, _) => BookingSummary
    case PaymentFormData(_, _) => PaymentForm
    case ConfirmationData(_, _) => Confirmation
    case HtmlCardData(_, _) => HtmlCard
  }

  /** A step; optional fields of the source are `Option`s (absent = `None`). */
  datatype Step = Step(
    id: Id, title: Option<string>, status: Status, ts: Option<int>,
    afterMessageId: Option<Id>, data: StepData)
  {
    function Kind(): Kind { KindOf(data) }
  }

  function Pick<T>(newer: Option<T>, older: Option<T>): Option<T> {
    if newer.Some? then newer else older
  }

  /** `{ ...older, ...newer }`: every field `newer` has replaces the one in `older`. */
  function Merge(older: Step, newer: Step): (r: Step)
    ensures r.id == newer.id && r.status == newer.status && r.data == newer.data
    ensures newer.title.Some? ==> r.title == newer.title
    ensures newer.title.None? ==> r.title == older.title
    ensures newer.ts.Some? ==> r.ts == newer.ts
    ensures newer.ts.None? ==> r.ts == older.ts
    ensures newer.afterMessageId.Some? ==> r.afterMessageId == newer.afterMessageId
    ensures newer.afterMessageId.None? ==> r.afterMessageId == older.afterMessageId
  {
    Step(newer.id, Pick(newer.title, older.title), newer.status, Pick(newer.ts, older.ts),
         Pick(newer.afterMessageId, older.afterMessageId), newer.data)
  }

  /** `{ ...step, ts: step.ts ?? now }` */
  function Stamped(s: Step, now: int): (r: Step)
    ensures r.ts.Some?
    ensures s.ts.Some? ==> r == s
    ensures r == s.(ts := r.ts)
  {
    if s.ts.Some? then s else s.(ts := Some(now))
  }

  /** The index of the first step with `id`, or -1. */
  function IndexOf(steps: seq<Step>, id: Id): (k: int)
    ensures -1 <= k < |steps|
    ensures k == -1 <==> forall j :: 0 <= j < |steps| ==> steps[j].id != id
    ensures k >= 0 ==> steps[k].id == id && forall j :: 0 <= j < k ==> steps[j].id != id
  {
    FindIndex(steps, (s: Step) => s.id, id)
  }

  predicate HasId(steps: seq<Step>, id: Id) {
    exists j :: 0 <= j < |steps| && steps[j].id == id
  }

  /** `upsertStep`, on the value of the list. */
  function Upserted(steps: seq<Step>, s: Step, now: int): seq<Step> {
    var k := IndexOf(steps, s.id);
    if k >= 0 then steps[k := Merge(steps[k], s)] else steps + [Stamped(s, now)]
  }

  /** `completeStep`, on the value of the list. */
  function MarkCompleted(steps: seq<Step>, id: Id): seq<Step> {
    var k := IndexOf(steps, id);
    if k >= 0 then steps[k := steps[k].(status := Completed)] else steps
  }

  /** `steps.findIndex(s => s.id === id)`, written as the loop it stands for. */
  method FindStepIndex(steps: seq<Step>, id: Id) returns (k: int)
    ensures -1 <= k < |steps|
    ensures k >= 0 ==> steps[k].id == id && forall j :: 0 <= j < k ==> steps[j].id != id
    ensures k == -1 ==> forall j :: 0 <= j < |steps| ==> steps[j].id != id
    ensures k == IndexOf(steps, id)
  {
    k := 0;
    while k < |steps|
      invariant 0 <= k <= |steps|
      invariant forall j :: 0 <= j < k ==> steps[j].id != id
    {
      if steps[k].id == id {
        return;
      }
      k := k + 1;
    }
    k := -1;
  }

  /** The first index holding `id` is unique. */
  lemma IndexOfUnique(steps: seq<Step>, id: Id, k: int)
    requires -1 <= k < |steps|
    requires k >= 0 ==> steps[k].id == id && forall j :: 0 <= j < k ==> steps[j].id != id
    requires k == -1 ==> forall j :: 0 <= j < |steps| ==> steps[j].id != id
    ensures k == IndexOf(steps, id)
  {
  }

  // ---------------------------------------------------------------------
  // Properties of upsert and complete
  // ---------------------------------------------------------------------

  /**
   * Upsert is keyed by id: with a known id it overwrites that entry field by
   * field, keeping length and positions; with a new id it appends one stamped
   * step. Either way no other entry changes.
   */
  lemma UpsertKeyedById(steps: seq<Step>, s: Step, now: int)
    ensures var r := Upserted(steps, s, now);
      && (HasId(steps, s.id) ==>
            |r| == |steps| && r[IndexOf(steps, s.id)] == Merge(steps[IndexOf(steps, s.id)], s))
      && (!HasId(steps, s.id) ==> r == steps + [Stamped(s, now)])
      && (forall j :: 0 <= j < |steps| && j != IndexOf(steps, s.id) ==> r[j] == steps[j])
  {
  }

  /** After an upsert, looking the id up finds a step carrying the new status and data. */
  lemma {:induction false} UpsertThenFind(steps: seq<Step>, s: Step, now: int)
    ensures var r := Upserted(steps, s, now);
      var k := IndexOf(r, s.id);
      k >= 0 && r[k].status == s.status && r[k].data == s.data
      && (s.ts.Some? ==> r[k].ts == s.ts)
  {
    var r := Upserted(steps, s, now);
    var k := IndexOf(steps, s.id);
    if k >= 0 {
      assert r[k].id == s.id;
      assert forall j :: 0 <= j < k ==> r[j].id != s.id;
      IndexOfUnique(r, s.id, k);
    } else {
      assert forall j :: 0 <= j < |steps| ==> r[j].id != s.id;
      assert r[|steps|].id == s.id;
      assert IndexOf(r, s.id) == |steps|;
    }
  }

  /** An upsert keeps every id where it was: a step found before is found at the same index after. */
  lemma {:induction false} UpsertKeepsIndex(steps: seq<Step>, s: Step, now: int, id: Id)
    requires IndexOf(steps, id) >= 0
    ensures IndexOf(Upserted(steps, s, now), id) == IndexOf(steps, id)
  {
    var r := Upserted(steps, s, now);
    var k := IndexOf(steps, id);
    assert forall j :: 0 <= j < |steps| ==> r[j].id == steps[j].id;
    IndexOfUnique(r, id, k);
  }

  /** Upserting a step whose id is new appends it, stamped. */
  lemma UpsertFresh(steps: seq<Step>, step: Step, now: int)
    requires forall j :: 0 <= j < |steps| ==> steps[j].id != step.id
    ensures Upserted(steps, step, now) == steps + [Stamped(step, now)]
  {
  }

  /** Every step carries a timestamp. */
  predicate AllStamped(steps: seq<Step>) {
    forall j :: 0 <= j < |steps| ==> steps[j].ts.Some?
  }

  /** Upsert keeps every step timestamped: appended steps get `now`, merged ones keep theirs. */
  lemma UpsertKeepsStamped(steps: seq<Step>, s: Step, now: int)
    requires AllStamped(steps)
    ensures AllStamped(Upserted(steps, s, now))
  {
  }

  /** Repeating an upsert with the same step changes nothing more. */
  lemma {:induction false} UpsertIdempotent(steps: seq<Step>, s: Step, now: int, later: int)
    ensures Upserted(Upserted(steps, s, now), s, later) == Upserted(steps, s, now)
  {
    var r := Upserted(steps, s, now);
    var k := IndexOf(steps, s.id);
    if k >= 0 {
      assert forall j :: 0 <= j < k ==> r[j].id != s.id;
      IndexOfUnique(r, s.id, k);
      assert Merge(Merge(steps[k], s), s) == Merge(steps[k], s);
    } else {
      assert forall j :: 0 <= j < |steps| ==> r[j].id != s.id;
      assert r[|steps|].id == s.id;
      assert IndexOf(r, s.id) == |steps|;
      assert Merge(Stamped(s, now), s) == Stamped(s, now);
    }
  }

  /** Complete is a no-op for an absent id and otherwise sets only that step's status. */
  lemma CompleteOnlyStatus(steps: seq<Step>, id: Id)
    ensures var r := MarkCompleted(steps, id);
      && |r| == |steps|
      && (!HasId(steps, id) ==> r == steps)
      && (HasId(steps, id) ==> var k := IndexOf(steps, id);
            r[k] == steps[k].(status := Completed)
            && forall j :: 0 <= j < |steps| && j != k ==> r[j] == steps[j])
  {
  }

  /** Completing twice is completing once. */
  lemma {:induction false} CompleteIdempotent(steps: seq<Step>, id: Id)
    ensures MarkCompleted(MarkCompleted(steps, id), id) == MarkCompleted(steps, id)
  {
    var r := MarkCompleted(steps, id);
    var k := IndexOf(steps, id);
    if k >= 0 {
      assert forall j :: 0 <= j < k ==> r[j].id != id;
      IndexOfUnique(r, id, k);
    } else {
      assert r == steps;
    }
  }
}
