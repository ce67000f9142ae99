/**
 * The records of the livestock app: cows, their history events, the list
 * filters and the add-cow form.  Dates are ISO-8601 strings, as stored.
 * Numeric fields (weights, gains) are exact reals.
 */
module CowTypes {
  import opened Wrappers

  datatype CowSex = Male | Female

  datatype CowStatus = Active | InTreatment | Deceased

  datatype EventType = Created | WeightCheck | Treatment | PenChange | StatusChange | Death

  /** The optional details of an event; every field may be absent. */
  datatype EventMetadata = EventMetadata(
    weight: Option<real>,
    previousPen: Option<string>,
    newPen: Option<string>,
    previousStatus: Option<CowStatus>,
    newStatus: Option<CowStatus>,
    treatmentType: Option<string>)

  datatype CowEvent = CowEvent(
    id: string,
    eventType: EventType,
    date: string,
    description: string,
    metadata: Option<EventMetadata>)

  /** One animal; only `weight` and `dailyWeightGain` are optional. */
  datatype Cow = Cow(
    id: string,
    earTag: string,
    sex: CowSex,
    pen: string,
    status: CowStatus,
    weight: Option<real>,
    dailyWeightGain: Option<real>,
    createdAt: string,
    lastEventDate: string,
    events: seq<CowEvent>)

  /** The status selector of the list filters: one status, or the wildcard `'All'`. */
  datatype StatusFilter = AllStatuses | OnlyStatus(status: CowStatus)

  /**
   * The list filters.  The pen selector is any string; the string `'All'`
   * doubles as the wildcard.
   */
  datatype CowFilters = CowFilters(searchQuery: string, statusFilter: StatusFilter, penFilter: string)

  /** The pen selector's wildcard. */
  const AllPens: string := "All"

  /** The filters a fresh store starts with and `clearAllCows` restores. */
  const DefaultFilters: CowFilters := CowFilters("", AllStatuses, AllPens)

  /** The form's sex field, which may still be the empty string. */
  datatype FormSex = NoSex | ChosenSex(sex: CowSex)

  /** The add-cow form: free-text fields are strings, the weight still unparsed. */
  datatype CowFormValues = CowFormValues(
    earTag: string,
    sex: FormSex,
    pen: string,
    status: CowStatus,
    weight: string)

  // ---------------------------------------------------------------------
  // The string spellings of the enumerations
  // ---------------------------------------------------------------------

  function SexLabel(s: CowSex): string {
    match s
    case Male => "Male"
    case Female => "Female"
  }

  function StatusLabel(s: CowStatus): string {
    match s
    case Active => "Active"
    case InTreatment => "In Treatment"
    case Deceased => "Deceased"
  }

  function EventTypeLabel(t: EventType): string {
    match t
    case Created => "Created"
    case WeightCheck => "Weight Check"
    case Treatment => "Treatment"
    case PenChange => "Pen Change"
    case StatusChange => "Status Change"
    case Death => "Death"
  }

  /** The string a form field holds for its sex selection (`''` before a choice). */
  function FormSexText(s: FormSex): string {
    match s
    case NoSex => ""
    case ChosenSex(x) => SexLabel(x)
  }

  /** Reads a sex spelling; every other string is refused. */
  function ParseSex(t: string): (r: Option<CowSex>)
    ensures r.Some? <==> t == "Male" || t == "Female"
    ensures r.Some? ==> SexLabel(r.value) == t
  {
    if t == "Male" then Some(Male)
    else if t == "Female" then Some(Female)
    else None
  }

  /** Reads a status spelling; every other string is refused. */
  function ParseStatus(t: string): (r: Option<CowStatus>)
    ensures r.Some? <==> t == "Active" || t == "In Treatment" || t == "Deceased"
    ensures r.Some? ==> StatusLabel(r.value) == t
  {
    if t == "Active" then Some(Active)
    else if t == "In Treatment" then Some(InTreatment)
    else if t == "Deceased" then Some(Deceased)
    else None
  }

  /** Reads an event-type spelling; every other string is refused. */
  function ParseEventType(t: string): (r: Option<EventType>)
    ensures r.Some? ==> EventTypeLabel(r.value) == t
  {
    if t == "Created" then Some(Created)
    else if t == "Weight Check" then Some(WeightCheck)
    else if t == "Treatment" then Some(Treatment)
    else if t == "Pen Change" then Some(PenChange)
    else if t == "Status Change" then Some(StatusChange)
    else if t == "Death" then Some(Death)
    else None
  }

  /** Each spelling reads back as the value it spells, so the spellings are pairwise distinct. */
  lemma LabelsRoundTrip(x: CowSex, s: CowStatus, t: EventType)
    ensures ParseSex(SexLabel(x)) == Some(x)
    ensures ParseStatus(StatusLabel(s)) == Some(s)
    ensures ParseEventType(EventTypeLabel(t)) == Some(t)
  {
  }

  /** The form's sex text is valid exactly when a sex has been chosen; it is never the record's. */
  lemma FormSexTextParses(s: FormSex)
    ensures FormSexText(s) == "" <==> s == NoSex
    ensures ParseSex(FormSexText(s)) == if s.ChosenSex? then Some(s.sex) else None
  {
  }

  /** The statuses, in the order the list screen offers them. */
  const Statuses: seq<CowStatus> := [Active, InTreatment, Deceased]

  /** There are exactly three statuses, two sexes and six event types. */
  lemma EnumerationsComplete(x: CowSex, s: CowStatus, t: EventType)
    ensures x == Male || x == Female
    ensures s in Statuses && |Statuses| == 3
    ensures Statuses[0] != Statuses[1] && Statuses[1] != Statuses[2] && Statuses[0] != Statuses[2]
    ensures t in [Created, WeightCheck, Treatment, PenChange, StatusChange, Death]
  {
  }

  // ---------------------------------------------------------------------
  // The history invariant of a record
  // ---------------------------------------------------------------------

  /**
   * A record's history as the app creates and extends it: at least one
   * event, `lastEventDate` is the newest (first) event's date, and the
   * oldest (last) event is the `Created` one, dated `createdAt`.
   */
  ghost predicate WellFormedHistory(c: Cow) {
    && c.events != []
    && c.lastEventDate == c.events[0].date
    && c.events[|c.events| - 1].eventType == Created
    && c.events[|c.events| - 1].date == c.createdAt
  }

  /** Every event date is no later (in the strings' order) than the one before it. */
  ghost predicate NewestFirst(events: seq<CowEvent>, le: (string, string) -> bool) {
    forall j :: 0 <= j < |events| - 1 ==> le(events[j + 1].date, events[j].date)
  }

  /** `cow` with `event` put in front of its history, as `addEvent` does. */
  function WithEvent(cow: Cow, event: CowEvent): (r: Cow)
    ensures r.events == [event] + cow.events && r.lastEventDate == event.date
    ensures r.(events := cow.events, lastEventDate := cow.lastEventDate) == cow
  {
    cow.(events := [event] + cow.events, lastEventDate := event.date)
  }

  /** Putting an event in front keeps the history invariant. */
  lemma WithEventKeepsHistory(cow: Cow, event: CowEvent)
    requires WellFormedHistory(cow)
    ensures WellFormedHistory(WithEvent(cow, event))
    ensures WithEvent(cow, event).events[1..] == cow.events
  {
    var r := WithEvent(cow, event);
    assert r.events[|r.events| - 1] == cow.events[|cow.events| - 1];
  }

  // ---------------------------------------------------------------------
  // Collection invariants
  // ---------------------------------------------------------------------

  /** No two records share an identifier. */
  ghost predicate UniqueIds(cows: seq<Cow>) {
    forall i, j :: 0 <= i < j < |cows| ==> cows[i].id != cows[j].id
  }

  /** No two records share an ear tag. */
  ghost predicate UniqueTags(cows: seq<Cow>) {
    forall i, j :: 0 <= i < j < |cows| ==> cows[i].earTag != cows[j].earTag
  }
}
