/**
 * The three-cow sample collection.  The clock is a parameter: `nowMs` is the
 * current time in milliseconds and `toIso` renders a time as its ISO-8601
 * string.
 */
module SampleData {
  import opened Wrappers
  import opened CowTypes
  import opened JsString
  import opened CowContext

  /** Milliseconds in a day. */
  const DayMs: int := 24 * 60 * 60 * 1000

  function SevenDaysAgo(nowMs: int): (t: int)
    ensures t == nowMs - 604_800_000
  {
    nowMs - 7 * DayMs
  }

  function FourteenDaysAgo(nowMs: int): (t: int)
    ensures t == nowMs - 1_209_600_000
    ensures t < SevenDaysAgo(nowMs) < nowMs
  {
    nowMs - 14 * DayMs
  }

  /** No metadata field set. */
  const NoMetadata: EventMetadata := EventMetadata(None, None, None, None, None, None)

  /** `generateSampleCows`, at the time `nowMs`. */
  function GenerateSampleCows(nowMs: int, toIso: int -> string): (r: seq<Cow>)
    ensures |r| == 3
    ensures r[0].id == "1" && r[1].id == "2" && r[2].id == "3"
    ensures r[0].earTag == "COW-001" && r[1].earTag == "COW-002" && r[2].earTag == "COW-003"
    ensures r[0].status == Active && r[1].status == InTreatment && r[2].status == Active
    ensures r[0].pen == "A1" && r[1].pen == "A1" && r[2].pen == "B2"
  {
    var now := toIso(nowMs);
    var sevenDaysAgo := toIso(SevenDaysAgo(nowMs));
    var fourteenDaysAgo := toIso(FourteenDaysAgo(nowMs));
    [
      Cow("1", "COW-001", Female, "A1", Active, Some(450.0), Some(1.2), fourteenDaysAgo, sevenDaysAgo,
          [ CowEvent("1-1", WeightCheck, sevenDaysAgo, "Regular weight check",
                     Some(NoMetadata.(weight := Some(450.0)))),
            CowEvent("1-2", Created, fourteenDaysAgo, "Cow COW-001 created", None) ]),
      Cow("2", "COW-002", Male, "A1", InTreatment, Some(520.0), Some(0.8), fourteenDaysAgo, now,
          [ CowEvent("2-1", Treatment, now, "Started antibiotic treatment",
                     Some(NoMetadata.(treatmentType := Some("Antibiotics")))),
            CowEvent("2-2", Created, fourteenDaysAgo, "Cow COW-002 created", None) ]),
      Cow("3", "COW-003", Female, "B2", Active, Some(380.0), None, sevenDaysAgo, sevenDaysAgo,
          [ CowEvent("3-1", Created, sevenDaysAgo, "Cow COW-003 created", None) ])
    ]
  }

  /** The sample ids and ear tags are pairwise distinct. */
  lemma SampleUnique(nowMs: int, toIso: int -> string)
    ensures UniqueIds(GenerateSampleCows(nowMs, toIso))
    ensures UniqueTags(GenerateSampleCows(nowMs, toIso))
  {
    var r := GenerateSampleCows(nowMs, toIso);
    assert r[0].earTag[6] == '1' && r[1].earTag[6] == '2' && r[2].earTag[6] == '3';
  }

  /**
   * Every sample cow has a well-formed history: `lastEventDate` is the date
   * of its first event, and its last event is the `Created` one dated `createdAt`.
   */
  lemma SampleHistories(nowMs: int, toIso: int -> string)
    ensures forall i :: 0 <= i < 3 ==> WellFormedHistory(GenerateSampleCows(nowMs, toIso)[i])
  {
  }

  /** When rendering keeps the order of times, every sample history is newest first. */
  lemma SampleNewestFirst(nowMs: int, toIso: int -> string)
    requires forall a, b :: a <= b ==> StrLe(toIso(a), toIso(b))
    ensures forall i :: 0 <= i < 3 ==> NewestFirst(GenerateSampleCows(nowMs, toIso)[i].events, StrLe)
  {
    var r := GenerateSampleCows(nowMs, toIso);
    assert StrLe(toIso(SevenDaysAgo(nowMs)), toIso(nowMs));
    assert StrLe(toIso(FourteenDaysAgo(nowMs)), toIso(SevenDaysAgo(nowMs)));
    assert StrLe(toIso(FourteenDaysAgo(nowMs)), toIso(nowMs));
    assert r[0].events[1].date == toIso(FourteenDaysAgo(nowMs)) && r[0].events[0].date == toIso(SevenDaysAgo(nowMs));
    assert r[1].events[1].date == toIso(FourteenDaysAgo(nowMs)) && r[1].events[0].date == toIso(nowMs);
  }

  /** Filtering the samples by status `'Active'` shows COW-001 and COW-003. */
  lemma ActiveSamples(nowMs: int, toIso: int -> string)
    ensures var r := GenerateSampleCows(nowMs, toIso);
      FilterCows(r, CowFilters("", OnlyStatus(Active), AllPens)) == [r[0], r[2]]
  {
    var r := GenerateSampleCows(nowMs, toIso);
    var f := CowFilters("", OnlyStatus(Active), AllPens);
    StatusDecides(r[0], f);
    StatusDecides(r[1], f);
    StatusDecides(r[2], f);
    ThreeFiltered(r, f);
  }

  /** With no search and every pen, a cow passes exactly when its status is selected. */
  lemma StatusDecides(c: Cow, f: CowFilters)
    requires f.searchQuery == "" && f.penFilter == AllPens && f.statusFilter.OnlyStatus?
    ensures Matches(c, f) <==> c.status == f.statusFilter.status
  {
  }

  /** Searching the samples for `"cow-002"` shows COW-002 alone. */
  lemma SearchSample(nowMs: int, toIso: int -> string)
    ensures var r := GenerateSampleCows(nowMs, toIso);
      FilterCows(r, CowFilters("cow-002", AllStatuses, AllPens)) == [r[1]]
  {
    var r := GenerateSampleCows(nowMs, toIso);
    var f := CowFilters("cow-002", AllStatuses, AllPens);
    OtherTagMisses(r[0], "cow-001");
    OwnTagMatches(r[1]);
    OtherTagMisses(r[2], "cow-003");
    ThreeFiltered(r, f);
  }

  /** The query `"cow-002"` finds the tag `COW-002`. */
  lemma OwnTagMatches(c: Cow)
    requires c.earTag == "COW-002"
    ensures Matches(c, CowFilters("cow-002", AllStatuses, AllPens))
  {
    LowerTag("COW-002", "cow-002");
    LowerTag("cow-002", "cow-002");
    IncludesEmptyAndSelf("cow-002");
  }

  /** The query `"cow-002"` misses another sample tag, whatever its case. */
  lemma OtherTagMisses(c: Cow, lower: string)
    requires c.earTag in {"COW-001", "COW-003"}
    requires lower == if c.earTag == "COW-001" then "cow-001" else "cow-003"
    ensures !Matches(c, CowFilters("cow-002", AllStatuses, AllPens))
  {
    LowerTag(c.earTag, lower);
    LowerTag("cow-002", "cow-002");
    assert lower[6] != "cow-002"[6];
    NotIncluded(lower, "cow-002");
  }

  /** The view of a three-cow collection, cow by cow. */
  lemma ThreeFiltered(r: seq<Cow>, f: CowFilters)
    requires |r| == 3
    ensures FilterCows(r, f) == Passing(r[0], f) + Passing(r[1], f) + Passing(r[2], f)
  {
    var last: seq<Cow> := [r[2]];
    var tail := [r[1]] + last;
    assert last == [r[2]] + [];
    assert r == [r[0]] + tail;
    FilterCowsCons(r[2], [], f);
    assert FilterCows(last, f) == Passing(r[2], f);
    FilterCowsCons(r[1], last, f);
    assert FilterCows(tail, f) == Passing(r[1], f) + Passing(r[2], f);
    FilterCowsCons(r[0], tail, f);
    assert FilterCows(r, f) == Passing(r[0], f) + FilterCows(tail, f);
    ConcatAssociative(Passing(r[0], f), Passing(r[1], f), Passing(r[2], f));
  }

  /** Regrouping the three one-cow views; a separate step keeps `ThreeFiltered` small for the solver. */
  lemma ConcatAssociative(a: seq<Cow>, b: seq<Cow>, c: seq<Cow>)
    ensures a + (b + c) == a + b + c
  {
  }

  /** The one-cow view of `c`. */
  function Passing(c: Cow, f: CowFilters): seq<Cow>
  {
    if Matches(c, f) then [c] else []
  }

  lemma LowerTag(tag: string, lower: string)
    requires |lower| == |tag| && forall i :: 0 <= i < |tag| ==> lower[i] == LowerChar(tag[i])
    ensures Lower(tag) == lower
  {
  }

  lemma NotIncluded(hay: string, needle: string)
    requires |hay| == |needle| && hay != needle
    ensures !Includes(hay, needle)
  {
    IncludesIff(hay, needle);
  }
}
