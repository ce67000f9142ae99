/**
 * The list screen's logic: the pen selector's choices, the status
 * selector's choices, the status colours, the single-field filter updates,
 * and the refresh and clear-all flag sequencing.
 */
module CowList {
  import opened Wrappers
  import opened CowTypes
  import opened JsString
  import opened JsArray
  import opened Storage
  import opened CowContext
  import opened Colors

  // ---------------------------------------------------------------------
  // The pen choices
  // ---------------------------------------------------------------------

  /** `cows.map(cow => cow.pen)`. */
  function Pens(cows: seq<Cow>): (r: seq<string>)
    ensures |r| == |cows|
    ensures forall i :: 0 <= i < |cows| ==> r[i] == cows[i].pen
  {
    seq(|cows|, i requires 0 <= i < |cows| => cows[i].pen)
  }

  /**
   * `allPens`: the distinct pens of the collection, sorted ascending.  Every
   * pen of a cow is in it, and nothing else.
   */
  function AllPensOf(cows: seq<Cow>): (r: seq<string>)
    ensures Sorted(r) && NoDups(r)
    ensures forall i :: 0 <= i < |r| ==> exists k :: 0 <= k < |cows| && cows[k].pen == r[i]
    ensures forall k :: 0 <= k < |cows| ==> cows[k].pen in r
  {
    var r := SortStrings(Distinct(Pens(cows)));
    PenMembers(cows, r);
    r
  }

  /** A rearrangement of the distinct pens holds every pen of the collection and nothing else. */
  lemma PenMembers(cows: seq<Cow>, r: seq<string>)
    requires multiset(r) == multiset(Distinct(Pens(cows)))
    ensures forall i :: 0 <= i < |r| ==> exists k :: 0 <= k < |cows| && cows[k].pen == r[i]
    ensures forall k :: 0 <= k < |cows| ==> cows[k].pen in r
  {
    var pens := Pens(cows);
    var d := Distinct(pens);
    forall i | 0 <= i < |r| ensures exists k :: 0 <= k < |cows| && cows[k].pen == r[i] {
      assert r[i] in multiset(r);
      assert r[i] in d;
      var k :| 0 <= k < |pens| && pens[k] == r[i];
    }
    forall k | 0 <= k < |cows| ensures cows[k].pen in r {
      assert pens[k] in d;
      assert pens[k] in multiset(d);
    }
  }

  /** Every pen occurs in `allPens` exactly once; other strings do not occur. */
  lemma AllPensExactlyOnce(cows: seq<Cow>, pen: string)
    ensures multiset(AllPensOf(cows))[pen] == if pen in Pens(cows) then 1 else 0
  {
    var r := AllPensOf(cows);
    var pens := Pens(cows);
    if pen in pens {
      var k :| 0 <= k < |pens| && pens[k] == pen;
      assert cows[k].pen in r;
    } else {
      forall i | 0 <= i < |r| ensures r[i] != pen {
        var k :| 0 <= k < |cows| && cows[k].pen == r[i];
        assert pens[k] == r[i];
      }
      assert pen !in r;
    }
  }

  /** `allPens` is strictly ascending. */
  lemma AllPensStrictlyAscending(cows: seq<Cow>, i: int, j: int)
    requires 0 <= i < j < |AllPensOf(cows)|
    ensures var r := AllPensOf(cows); StrLe(r[i], r[j]) && r[i] != r[j]
  {
    SortedNoDupsStrict(AllPensOf(cows), i, j);
  }

  /** Choosing any offered pen, with no search and every status, shows at least one cow. */
  lemma OfferedPenIsNeverEmpty(cows: seq<Cow>, i: int)
    requires 0 <= i < |AllPensOf(cows)|
    ensures FilterCows(cows, DefaultFilters.(penFilter := AllPensOf(cows)[i])) != []
  {
    var f := DefaultFilters.(penFilter := AllPensOf(cows)[i]);
    var k :| 0 <= k < |cows| && cows[k].pen == AllPensOf(cows)[i];
    assert Matches(cows[k], f);
    assert cows[k] in FilterCows(cows, f);
  }

  // ---------------------------------------------------------------------
  // The status choices and colours
  // ---------------------------------------------------------------------

  /** `statusOptions`: the wildcard, then the three statuses. */
  const StatusOptions: seq<StatusFilter> :=
    [AllStatuses, OnlyStatus(Active), OnlyStatus(InTreatment), OnlyStatus(Deceased)]

  /** The options are the wildcard followed by the statuses in order, and every selector is offered exactly once. */
  lemma StatusOptionsComplete(f: StatusFilter)
    ensures |StatusOptions| == 4 && StatusOptions[0] == AllStatuses
    ensures forall i :: 1 <= i < 4 ==> StatusOptions[i] == OnlyStatus(Statuses[i - 1])
    ensures f in StatusOptions
    ensures forall i, j :: 0 <= i < j < |StatusOptions| ==> StatusOptions[i] != StatusOptions[j]
  {
    match f
    case AllStatuses => assert StatusOptions[0] == f;
    case OnlyStatus(s) => assert StatusOptions[StatusIndex(s) + 1] == f;
  }

  /** The position of a status in `Statuses`. */
  function StatusIndex(s: CowStatus): (i: nat)
    ensures i < |Statuses| && Statuses[i] == s
  {
    match s
    case Active => 0
    case InTreatment => 1
    case Deceased => 2
  }

  /** `getStatusColor` of the list screen. */
  function StatusColor(s: CowStatus): (c: Colour)
    ensures c in {Success, Warning, Danger}
  {
    match s
    case Active => Success
    case InTreatment => Warning
    case Deceased => Danger
  }

  /** `getGradientColors` of the list screen: a start colour chosen by status, then the common end. */
  function GradientColors(s: CowStatus): (r: (Colour, Colour))
    ensures r.1 == GradientEnd
    ensures r.0 != GradientDefault && r.0 != GradientEnd
  {
    match s
    case Active => (GradientActiveStart, GradientEnd)
    case InTreatment => (GradientTreatmentStart, GradientEnd)
    case Deceased => (GradientDeceasedStart, GradientEnd)
  }

  /** The three statuses get three different colours and three different gradient starts. */
  lemma StatusColoursDistinct(a: CowStatus, b: CowStatus)
    ensures StatusColor(a) == StatusColor(b) <==> a == b
    ensures GradientColors(a) == GradientColors(b) <==> a == b
    ensures StatusColor(Active) == Success && StatusColor(InTreatment) == Warning && StatusColor(Deceased) == Danger
  {
  }

  // ---------------------------------------------------------------------
  // The filter updates
  // ---------------------------------------------------------------------

  /** `{ ...filters, searchQuery: text }`. */
  function WithSearch(f: CowFilters, text: string): (r: CowFilters)
    ensures r.searchQuery == text
    ensures r.statusFilter == f.statusFilter && r.penFilter == f.penFilter
  {
    f.(searchQuery := text)
  }

  /** `{ ...filters, statusFilter: status }`. */
  function WithStatus(f: CowFilters, status: StatusFilter): (r: CowFilters)
    ensures r.statusFilter == status
    ensures r.searchQuery == f.searchQuery && r.penFilter == f.penFilter
  {
    f.(statusFilter := status)
  }

  /** `{ ...filters, penFilter: pen }`. */
  function WithPen(f: CowFilters, pen: string): (r: CowFilters)
    ensures r.penFilter == pen
    ensures r.searchQuery == f.searchQuery && r.statusFilter == f.statusFilter
  {
    f.(penFilter := pen)
  }

  /**
   * Widening one selector to its wildcard never hides a cow: the view after
   * choosing `'All'` pens, `'All'` statuses or an empty search contains every
   * cow the view before contained.
   */
  lemma WideningKeepsMatches(c: Cow, f: CowFilters)
    requires Matches(c, f)
    ensures Matches(c, WithPen(f, AllPens))
    ensures Matches(c, WithStatus(f, AllStatuses))
    ensures Matches(c, WithSearch(f, ""))
  {
  }

  /** Updates of different fields commute, and a repeated update of one field keeps only the last. */
  lemma FilterUpdatesCommute(f: CowFilters, text: string, status: StatusFilter, pen: string, pen2: string)
    ensures WithPen(WithSearch(f, text), pen) == WithSearch(WithPen(f, pen), text)
    ensures WithStatus(WithSearch(f, text), status) == WithSearch(WithStatus(f, status), text)
    ensures WithPen(WithStatus(f, status), pen) == WithStatus(WithPen(f, pen), status)
    ensures WithPen(WithPen(f, pen2), pen) == WithPen(f, pen)
    ensures WithSearch(WithStatus(WithPen(f, pen), status), text) == CowFilters(text, status, pen)
  {
  }

  // ---------------------------------------------------------------------
  // The screen's flags
  // ---------------------------------------------------------------------

  /** The list screen's local state and handlers, over the shared store. */
  class CowListScreen {
    var refreshing: bool
    var showClearConfirmation: bool
    var isClearing: bool
    const store: CowStore

    constructor (store: CowStore)
      ensures this.store == store
      ensures !refreshing && !showClearConfirmation && !isClearing
    {
      this.store := store;
      refreshing := false;
      showClearConfirmation := false;
      isClearing := false;
    }

    /** `filteredCows`: the store's filtered view. */
    function FilteredCows(): (r: seq<Cow>)
      reads this, store
      ensures r == FilterCows(store.cows, store.filters)
    {
      store.GetFilteredCows()
    }

    /** `allPens` of the store's collection. */
    function PenChoices(): (r: seq<string>)
      reads this, store
      ensures Sorted(r) && NoDups(r)
      ensures forall i :: 0 <= i < |r| ==> exists k :: 0 <= k < |store.cows| && store.cows[k].pen == r[i]
      ensures forall k :: 0 <= k < |store.cows| ==> store.cows[k].pen in r
    {
      AllPensOf(store.cows)
    }

    /** `onRefresh`: reloads the store; refreshing ends false. */
    method OnRefresh(readOk: bool)
      modifies this, store
      ensures !refreshing
      ensures store.cows == ReadResult(store.storage.stored, readOk) && !store.loading
      ensures store.filters == old(store.filters)
      ensures showClearConfirmation == old(showClearConfirmation) && isClearing == old(isClearing)
    {
      refreshing := true;
      store.LoadCows(readOk);
      refreshing := false;
    }

    /** `handleClearData`: opens the confirmation. */
    method HandleClearData()
      modifies this
      ensures showClearConfirmation
      ensures refreshing == old(refreshing) && isClearing == old(isClearing)
    {
      showClearConfirmation := true;
    }

    /** `handleCloseClearConfirmation`: closes it without clearing. */
    method HandleCloseClearConfirmation()
      modifies this
      ensures !showClearConfirmation
      ensures refreshing == old(refreshing) && isClearing == old(isClearing)
    {
      showClearConfirmation := false;
    }

    /**
     * `handleConfirmClearData`: clears the store.  Clearing ends false on
     * both outcomes; the confirmation closes only when the clear succeeded.
     */
    method HandleConfirmClearData(removeOk: bool)
      modifies this, store, store.storage
      ensures !isClearing
      ensures showClearConfirmation == if removeOk then false else old(showClearConfirmation)
      ensures removeOk ==> store.cows == [] && store.filters == DefaultFilters && store.storage.stored == None
      ensures !removeOk ==>
        store.cows == old(store.cows) && store.filters == old(store.filters) &&
        store.storage.stored == old(store.storage.stored)
      ensures store.loading == old(store.loading)
      ensures refreshing == old(refreshing)
    {
      isClearing := true;
      var ok := store.ClearAllCows(removeOk);
      if ok {
        isClearing := false;
        showClearConfirmation := false;
      } else {
        isClearing := false;
      }
    }

    /** `handleSearchChange`. */
    method HandleSearchChange(text: string)
      modifies store
      ensures store.filters == WithSearch(old(store.filters), text)
      ensures store.cows == old(store.cows) && store.loading == old(store.loading)
    {
      store.SetFilters(WithSearch(store.filters, text));
    }

    /** `handleStatusFilter`. */
    method HandleStatusFilter(status: StatusFilter)
      modifies store
      ensures store.filters == WithStatus(old(store.filters), status)
      ensures store.cows == old(store.cows) && store.loading == old(store.loading)
    {
      store.SetFilters(WithStatus(store.filters, status));
    }

    /** `handlePenFilter`. */
    method HandlePenFilter(pen: string)
      modifies store
      ensures store.filters == WithPen(old(store.filters), pen)
      ensures store.cows == old(store.cows) && store.loading == old(store.loading)
    {
      store.SetFilters(WithPen(store.filters, pen));
    }

    /** `handleAllPensPress`: the pen selector back to `'All'`. */
    method HandleAllPensPress()
      modifies store
      ensures store.filters == WithPen(old(store.filters), AllPens)
      ensures store.cows == old(store.cows) && store.loading == old(store.loading)
    {
      HandlePenFilter(AllPens);
    }
  }
}
