/**
 * The detail screen's logic: the record looked up by the route's id, its
 * status colours, and the fallbacks shown while no such record exists.
 */
module CowDetail {
  import opened Wrappers
  import opened CowTypes
  import opened CowContext
  import opened Colors
  import opened CowList

  /** `getStatusColor` of the detail screen, which takes any string: unknown spellings are gray. */
  function DetailStatusColor(status: string): (c: Colour)
    ensures c == Gray <==> ParseStatus(status).None?
    ensures ParseStatus(status).Some? ==> c == StatusColor(ParseStatus(status).value)
  {
    if status == "Active" then Success
    else if status == "In Treatment" then Warning
    else if status == "Deceased" then Danger
    else Gray
  }

  /** `getGradientColors` of the detail screen. */
  function DetailGradientColors(s: CowStatus): (r: (Colour, Colour))
    ensures r.1 == GradientEnd
    ensures r == GradientColors(s)
  {
    match s
    case Active => (GradientActiveStart, GradientEnd)
    case InTreatment => (GradientTreatmentStart, GradientEnd)
    case Deceased => (GradientDeceasedStart, GradientEnd)
  }

  /** The two screens colour every record alike. */
  lemma ScreensAgree(s: CowStatus)
    ensures DetailStatusColor(StatusLabel(s)) == StatusColor(s)
    ensures DetailGradientColors(s) == GradientColors(s)
  {
    LabelsRoundTrip(Male, s, Created);
  }

  /** What the detail screen shows: the record, if any, its gradient and its status colour. */
  datatype DetailView = DetailView(cow: Option<Cow>, gradientColors: (Colour, Colour), statusColor: Colour)

  /** `useCowDetail` for the route's `cowId`, over the store's collection. */
  function CowDetailView(cows: seq<Cow>, cowId: string): (v: DetailView)
    ensures v.cow == FindById(cows, cowId)
    ensures v.cow.None? ==> v.gradientColors == (GradientDefault, GradientEnd) && v.statusColor == Gray
    ensures v.cow.Some? ==>
      v.gradientColors == GradientColors(v.cow.value.status) && v.statusColor == StatusColor(v.cow.value.status)
    ensures v.gradientColors.1 == GradientEnd
  {
    var cow := FindById(cows, cowId);
    match cow
    case None => DetailView(None, (GradientDefault, GradientEnd), Gray)
    case Some(c) =>
      ScreensAgree(c.status);
      DetailView(cow, DetailGradientColors(c.status), DetailStatusColor(StatusLabel(c.status)))
  }

  /** The detail view of the store the screens share. */
  function StoreDetailView(store: CowStore, cowId: string): (v: DetailView)
    reads store
    ensures v.cow == store.GetCowById(cowId)
    ensures v.statusColor == Gray <==> v.cow.None?
  {
    CowDetailView(store.cows, cowId)
  }

  /** The view shows a gray badge and the default gradient exactly when no record has the id. */
  lemma FallbackIffAbsent(cows: seq<Cow>, cowId: string)
    ensures CowDetailView(cows, cowId).statusColor == Gray <==>
      forall i :: 0 <= i < |cows| ==> cows[i].id != cowId
    ensures CowDetailView(cows, cowId).gradientColors.0 == GradientDefault <==>
      forall i :: 0 <= i < |cows| ==> cows[i].id != cowId
  {
  }
}
