/**
 * The in-memory store shared by the screens: the collection of cows, the
 * active list filters and the loading flag.  Every mutation first awaits the
 * persistence layer and changes memory only when that call succeeded; a
 * failure is passed on to the caller (a `false` result) with memory untouched.
 */
module CowContext {
  import opened Wrappers
  import opened CowTypes
  import opened JsString
  import opened JsArray
  import opened Storage

  // ---------------------------------------------------------------------
  // The filtered view
  // ---------------------------------------------------------------------

  /** An empty query matches every tag; otherwise the case-folded tag must contain the case-folded query. */
  predicate MatchesSearch(c: Cow, query: string) {
    query == "" || Includes(Lower(c.earTag), Lower(query))
  }

  predicate MatchesStatus(c: Cow, selector: StatusFilter) {
    selector == AllStatuses || c.status == selector.status
  }

  /** The pen selector `'All'` matches every pen, a pen literally named "All" included. */
  predicate MatchesPen(c: Cow, selector: string) {
    selector == AllPens || c.pen == selector
  }

  /** A cow is shown when it passes the search AND the status AND the pen selector. */
  predicate Matches(c: Cow, f: CowFilters): (r: bool)
    ensures f.searchQuery == "" && f.statusFilter == AllStatuses && f.penFilter == AllPens ==> r
    ensures r && f.searchQuery != "" ==> Includes(Lower(c.earTag), Lower(f.searchQuery))
    ensures r && f.statusFilter.OnlyStatus? ==> c.status == f.statusFilter.status
    ensures r && f.penFilter != AllPens ==> c.pen == f.penFilter
  {
    MatchesSearch(c, f.searchQuery) && MatchesStatus(c, f.statusFilter) && MatchesPen(c, f.penFilter)
  }

  /** `getFilteredCows`: the cows that pass all three selectors, in their original order. */
  function FilterCows(cows: seq<Cow>, f: CowFilters): (r: seq<Cow>)
    ensures forall i :: 0 <= i < |r| ==> r[i] in cows && Matches(r[i], f)
    ensures forall i :: 0 <= i < |cows| && Matches(cows[i], f) ==> cows[i] in r
  {
    Keep(cows, (c: Cow) => Matches(c, f))
  }

  /** The filtered view is a subsequence of the collection and keeps each passing cow as often as it occurs. */
  lemma FilterCowsExact(cows: seq<Cow>, f: CowFilters, c: Cow)
    ensures IsSubsequence(FilterCows(cows, f), cows)
    ensures multiset(FilterCows(cows, f))[c] == if Matches(c, f) then multiset(cows)[c] else 0
  {
    KeepIsSubsequence(cows, (x: Cow) => Matches(x, f));
    KeepCount(cows, (x: Cow) => Matches(x, f), c);
  }

  /** The view of a collection with one more cow in front: that cow, if it passes, then the view of the rest. */
  lemma FilterCowsCons(c: Cow, cows: seq<Cow>, f: CowFilters)
    ensures FilterCows([c] + cows, f) == (if Matches(c, f) then [c] else []) + FilterCows(cows, f)
    ensures FilterCows([], f) == []
  {
    assert ([c] + cows)[0] == c && ([c] + cows)[1..] == cows;
  }

  /** With the default filters (`''`, `'All'`, `'All'`) the view is the whole collection. */
  lemma FilterDefaultIsIdentity(cows: seq<Cow>)
    ensures FilterCows(cows, DefaultFilters) == cows
  {
    KeepAll(cows, (x: Cow) => Matches(x, DefaultFilters));
  }

  /**
   * The pen selector `'All'` never excludes a cow, whatever its pen; any other
   * selector keeps exactly that pen.  So a cow in a pen literally named "All"
   * passes only a selector that every other pen passes too.
   */
  lemma PenSelector(c: Cow, selector: string, otherPen: string)
    ensures MatchesPen(c, AllPens)
    ensures selector != AllPens ==> (MatchesPen(c, selector) <==> c.pen == selector)
    ensures c.pen == AllPens && MatchesPen(c, selector) ==> MatchesPen(c.(pen := otherPen), selector)
  {
  }

  /** Searching ignores the case of the query and of the tag (ASCII letters). */
  lemma SearchIgnoresCase(c: Cow, query: string)
    ensures MatchesSearch(c, query) == MatchesSearch(c, Lower(query))
    ensures MatchesSearch(c, query) == MatchesSearch(c.(earTag := Lower(c.earTag)), query)
  {
    LowerIdempotent(query);
    LowerIdempotent(c.earTag);
    assert query == "" <==> Lower(query) == "";
  }

  /** A non-empty query matches exactly when the case-folded tag has the case-folded query as a substring. */
  lemma SearchIsSubstring(c: Cow, query: string)
    requires query != ""
    ensures MatchesSearch(c, query) <==> exists i :: OccursAt(Lower(c.earTag), Lower(query), i)
  {
    IncludesIff(Lower(c.earTag), Lower(query));
    assert MatchesSearch(c, query) == Includes(Lower(c.earTag), Lower(query));
  }

  // ---------------------------------------------------------------------
  // Lookup and the in-memory update
  // ---------------------------------------------------------------------

  /** `getCowById`: the first cow with the id, if any. */
  function FindById(cows: seq<Cow>, id: string): (r: Option<Cow>)
    ensures r.None? <==> forall i :: 0 <= i < |cows| ==> cows[i].id != id
    ensures r.Some? ==> r.value == cows[IndexOfId(cows, id)]
  {
    Find(cows, (c: Cow) => c.id == id)
  }

  /** The in-memory `updateCow`: every cow with the id becomes `updated`, every other stays. */
  function ReplaceAll(cows: seq<Cow>, updated: Cow): (r: seq<Cow>)
    ensures |r| == |cows|
    ensures forall i :: 0 <= i < |cows| && cows[i].id == updated.id ==> r[i] == updated
    ensures forall i :: 0 <= i < |cows| && cows[i].id != updated.id ==> r[i] == cows[i]
  {
    if cows == [] then []
    else [if cows[0].id == updated.id then updated else cows[0]] + ReplaceAll(cows[1..], updated)
  }

  /**
   * When identifiers are unique, replacing every match in memory and replacing
   * the first match in storage give the same list.
   */
  lemma ReplaceFirstIsReplaceAll(cows: seq<Cow>, updated: Cow)
    requires UniqueIds(cows)
    ensures ReplaceFirst(cows, updated) == ReplaceAll(cows, updated)
  {
    var k := IndexOfId(cows, updated.id);
    forall i | 0 <= i < |cows| ensures ReplaceFirst(cows, updated)[i] == ReplaceAll(cows, updated)[i] {
      if cows[i].id == updated.id {
        assert k != -1;
        assert i == k by {
          if i < k {
          } else if k < i {
            assert cows[k].id == cows[i].id;
          }
        }
      }
    }
  }

  /** Replacing by id and deleting by id keep identifiers unique. */
  lemma UpdatesKeepUniqueIds(cows: seq<Cow>, updated: Cow, id: string)
    requires UniqueIds(cows)
    ensures UniqueIds(ReplaceAll(cows, updated))
    ensures UniqueIds(WithoutId(cows, id))
  {
    var r := ReplaceAll(cows, updated);
    forall i, j | 0 <= i < j < |r| ensures r[i].id != r[j].id {
      if cows[i].id == updated.id {
        assert cows[j].id != updated.id;
      }
    }
    WithoutIdKeepsUniqueIds(cows, id);
  }

  lemma {:induction false} WithoutIdKeepsUniqueIds(cows: seq<Cow>, id: string)
    requires UniqueIds(cows)
    ensures UniqueIds(WithoutId(cows, id))
  {
    if cows != [] {
      WithoutIdKeepsUniqueIds(cows[1..], id);
      var rest := WithoutId(cows[1..], id);
      if cows[0].id != id {
        assert WithoutId(cows, id) == [cows[0]] + rest;
        forall j | 0 <= j < |rest| ensures rest[j].id != cows[0].id {
          assert rest[j] in cows[1..];
        }
      }
    }
  }

  // ---------------------------------------------------------------------
  // The store
  // ---------------------------------------------------------------------

  /** `CowProvider`'s state and operations. */
  class CowStore {
    var cows: seq<Cow>
    var filters: CowFilters
    var loading: bool
    const storage: CowStorage

    /** A fresh provider: no cows, default filters, loading. */
    constructor (storage: CowStorage)
      ensures this.storage == storage
      ensures cows == [] && filters == DefaultFilters && loading
    {
      this.storage := storage;
      cows := [];
      filters := DefaultFilters;
      loading := true;
    }

    /** Memory holds what a successful read of storage would return. */
    ghost predicate InSync()
      reads this, storage
    {
      cows == storage.Loaded()
    }

    /** `loadCows`: memory becomes what storage returns (`[]` if the read fails); loading ends false. */
    method LoadCows(readOk: bool)
      modifies this
      ensures cows == ReadResult(storage.stored, readOk)
      ensures !loading && filters == old(filters)
      ensures readOk ==> InSync()
    {
      loading := true;
      var loaded := storage.GetCows(readOk);
      cows := loaded;
      loading := false;
    }

    /** `addCow`: appends in storage, then in memory; a failed write changes neither and is passed on. */
    method AddCow(cow: Cow, readOk: bool, writeOk: bool) returns (ok: bool)
      modifies this, storage
      ensures ok == writeOk
      ensures cows == if ok then old(cows) + [cow] else old(cows)
      ensures storage.stored == if ok then Some(ReadResult(old(storage.stored), readOk) + [cow]) else old(storage.stored)
      ensures filters == old(filters) && loading == old(loading)
      ensures old(InSync()) && readOk ==> InSync()
    {
      ok := storage.AddCow(cow, readOk, writeOk);
      if ok {
        cows := cows + [cow];
      }
    }

    /**
     * `updateCow`: replaces in storage (first match only, no write when storage
     * has no match), then every match in memory.  A failed write changes
     * neither and is passed on.  A failed read finds no match in storage, so
     * memory changes although nothing was written.
     */
    method UpdateCow(updated: Cow, readOk: bool, writeOk: bool) returns (ok: bool)
      modifies this, storage
      ensures var before := ReadResult(old(storage.stored), readOk);
        if IndexOfId(before, updated.id) == -1 then ok && storage.stored == old(storage.stored)
        else ok == writeOk && storage.stored == if ok then Some(ReplaceFirst(before, updated)) else old(storage.stored)
      ensures cows == if ok then ReplaceAll(old(cows), updated) else old(cows)
      ensures filters == old(filters) && loading == old(loading)
      ensures old(InSync()) && readOk && UniqueIds(old(cows)) ==> InSync()
      ensures !readOk ==> ok && storage.stored == old(storage.stored)
    {
      ok := storage.UpdateCow(updated, readOk, writeOk);
      if ok {
        cows := ReplaceAll(cows, updated);
        if old(InSync()) && readOk && UniqueIds(old(cows)) {
          ReplaceFirstIsReplaceAll(old(cows), updated);
        }
      }
    }

    /** `deleteCow`: removes every cow with the id from storage, then from memory. */
    method DeleteCow(id: string, readOk: bool, writeOk: bool) returns (ok: bool)
      modifies this, storage
      ensures ok == writeOk
      ensures cows == if ok then WithoutId(old(cows), id) else old(cows)
      ensures storage.stored == if ok then Some(WithoutId(ReadResult(old(storage.stored), readOk), id)) else old(storage.stored)
      ensures filters == old(filters) && loading == old(loading)
      ensures old(InSync()) && readOk ==> InSync()
    {
      ok := storage.DeleteCow(id, readOk, writeOk);
      if ok {
        cows := WithoutId(cows, id);
      }
    }

    /**
     * `clearAllCows`: removes the key, then empties memory and resets the
     * filters; a failed removal changes nothing and is passed on.
     */
    method ClearAllCows(removeOk: bool) returns (ok: bool)
      modifies this, storage
      ensures ok == removeOk
      ensures ok ==> cows == [] && filters == DefaultFilters && storage.stored == None
      ensures !ok ==> cows == old(cows) && filters == old(filters) && storage.stored == old(storage.stored)
      ensures loading == old(loading)
      ensures ok ==> InSync()
    {
      ok := storage.ClearAll(removeOk);
      if ok {
        cows := [];
        filters := DefaultFilters;
      }
    }

    /** `getCowById`, on memory only. */
    function GetCowById(id: string): (r: Option<Cow>)
      reads this
      ensures r.None? <==> forall i :: 0 <= i < |cows| ==> cows[i].id != id
      ensures r.Some? ==> r.value.id == id && r.value == cows[IndexOfId(cows, id)]
    {
      FindById(cows, id)
    }

    /** `setFilters`: replaces the filters wholesale. */
    method SetFilters(f: CowFilters)
      modifies this
      ensures filters == f && cows == old(cows) && loading == old(loading)
    {
      filters := f;
    }

    /** `getFilteredCows`: the view of memory under the active filters; memory is not changed. */
    function GetFilteredCows(): (r: seq<Cow>)
      reads this
      ensures forall i :: 0 <= i < |r| ==> r[i] in cows && Matches(r[i], filters)
      ensures forall i :: 0 <= i < |cows| && Matches(cows[i], filters) ==> cows[i] in r
    {
      FilterCows(cows, filters)
    }

    /**
     * `addEvent`: an unknown id changes nothing.  Otherwise the cow gets the
     * event in front of its history and `lastEventDate` set to the event's
     * date, and goes through `UpdateCow`.
     */
    method AddEvent(cowId: string, event: CowEvent, readOk: bool, writeOk: bool) returns (ok: bool)
      modifies this, storage
      ensures FindById(old(cows), cowId).None? ==>
        ok && cows == old(cows) && storage.stored == old(storage.stored)
      ensures FindById(old(cows), cowId).Some? ==>
        var updated := WithEvent(FindById(old(cows), cowId).value, event);
        && cows == (if ok then ReplaceAll(old(cows), updated) else old(cows))
        && var before := ReadResult(old(storage.stored), readOk);
           if IndexOfId(before, updated.id) == -1 then ok && storage.stored == old(storage.stored)
           else ok == writeOk && storage.stored == if ok then Some(ReplaceFirst(before, updated)) else old(storage.stored)
      ensures filters == old(filters) && loading == old(loading)
    {
      var cow := GetCowById(cowId);
      if cow.None? {
        return true;
      }
      var updated := WithEvent(cow.value, event);
      ok := UpdateCow(updated, readOk, writeOk);
    }
  }

  /**
   * After a successful `addEvent` on a known, well-formed cow, the cow found
   * under that id has the event first in its history, `lastEventDate` equal
   * to its date, and every other field as before.
   */
  lemma AddEventResult(cows: seq<Cow>, cowId: string, event: CowEvent)
    requires FindById(cows, cowId).Some?
    ensures var old_ := FindById(cows, cowId).value;
      var now := FindById(ReplaceAll(cows, WithEvent(old_, event)), cowId);
      && now.Some?
      && now.value.events == [event] + old_.events
      && now.value.events[0] == event
      && now.value.lastEventDate == event.date
      && now.value.(events := old_.events, lastEventDate := old_.lastEventDate) == old_
      && (WellFormedHistory(old_) ==> WellFormedHistory(now.value))
  {
    var old_ := FindById(cows, cowId).value;
    var u := WithEvent(old_, event);
    var r := ReplaceAll(cows, u);
    var k := IndexOfId(cows, cowId);
    assert r[k] == u;
    var now := FindById(r, cowId);
    assert now.Some?;
    assert IndexOfId(r, cowId) == k by {
      forall i | 0 <= i < k ensures r[i].id != cowId {
        assert cows[i].id != cowId;
      }
    }
    if WellFormedHistory(old_) {
      WithEventKeepsHistory(old_, event);
    }
  }
}
