# Livestock records: a Dafny model of the domain core

This project models the domain core of a React Native livestock-record app
and proves properties of that model. The core has these parts:

- the cow and event records;
- the persistence layer, which keeps the whole collection under one key of
  the device's key-value store and rewrites it on every change;
- the in-memory store the screens share (`CowProvider`);
- the add-cow form's validation and record construction;
- the list and detail screens' view logic;
- the dotted-path lookup into the display-strings table;
- the three-cow sample collection.

One Dafny module models each source file:

| module | file | models |
|---|---|---|
| `CowTypes` | `cowtypes.dfy` | the records, the enumerations and their spellings |
| `Storage` | `storage.dfy` | the persistence layer, as the class `CowStorage` |
| `CowContext` | `cowcontext.dfy` | the store, as the class `CowStore`, plus its pure filter and lookup |
| `CowValidation` | `cowvalidation.dfy` | the form schema |
| `AddCow` | `addcow.dfy` | the add-cow hook |
| `CowList` | `cowlist.dfy` | the list hook |
| `CowDetail` | `cowdetail.dfy` | the detail hook |
| `Strings` | `strings.dfy` | `getString` |
| `SampleData` | `sampledata.dfy` | `generateSampleCows` |

Four helper modules supply the rest:

- `JsString` models the string built-ins the core calls: `trim`, ASCII `toLowerCase`, `includes`, `split` and the default sort order.
- `JsArray` models the array built-ins: `filter`, `findIndex`, `find`, `Array.from(new Set(...))` and `sort()`.
- `Colors` holds the palette entries the colour maps use.
- `Wrappers` holds `Option`.

The outcome of each call into the key-value store is a boolean parameter:

- `readOk`: the read and the JSON parse succeeded;
- `writeOk`: the write succeeded;
- `removeOk`: the removal succeeded.

An exception the source rethrows becomes an `ok == false` result. The store's state is left exactly as the source leaves it. JSON is taken to be an exact round trip, so the key holds `Option<seq<Cow>>`.

The model proves these behaviours of the code as written:

- If a read fails inside `addCow` or `deleteCow`, the list written back is built from `[]`. A successful write then replaces the stored collection (`Storage.CowStorage.AddCow`, `Storage.CowStorage.DeleteCow`).
- If a read fails inside `updateCow`, the storage layer finds no match and writes nothing. The call still succeeds, so the in-memory store applies the update. When memory held a cow with that id that differs from the update, memory and storage disagree afterwards (`CowContext.CowStore.UpdateCow`, last ensures).
- In storage, `updateCow` replaces only the first entry with the id. In memory, every entry with the id is replaced. The two agree when ids are unique (`CowContext.ReplaceFirstIsReplaceAll`), and the store stays in sync with storage under that condition.

## Model

| member | source | states |
|---|---|---|
| CowTypes.LabelsRoundTrip | src/types/cow.ts:1-11 | each sex, status and event-type spelling reads back as the value it spells, so the spellings are pairwise distinct |
| CowTypes.EnumerationsComplete | src/types/cow.ts:1-11 | there are exactly two sexes, three statuses (listed without repeats) and six event types |
| CowTypes.ParseSex | src/types/cow.ts:1 | a string is a sex exactly when it is `Male` or `Female`, and it reads back to its spelling |
| CowTypes.ParseStatus | src/types/cow.ts:3 | a string is a status exactly when it is `Active`, `In Treatment` or `Deceased` |
| CowTypes.ParseEventType | src/types/cow.ts:5-11 | every event type that is read spells back as the string it came from |
| CowTypes.FormSexTextParses | src/types/cow.ts:47-53 | the form's sex text is `''` exactly before a choice; it parses to a record sex exactly after one |
| CowTypes.WithEvent | src/types/cow.ts:28-39 | the event goes in front of the history and sets `lastEventDate`; every other field is unchanged |
| CowTypes.WithEventKeepsHistory | src/types/cow.ts:28-39 | putting an event in front keeps the history invariant: non-empty, `lastEventDate` is the first event's date, and the last event is `Created`, dated `createdAt` |
| JsString.SkipSpaces | src/schemas/cowValidation.ts:8 | the index of the first non-white-space character at or after `from` (or the end); everything skipped is white space |
| JsString.BackSpaces | src/schemas/cowValidation.ts:8 | the index just past the last non-white-space character before `upto` (or 0); everything skipped is white space |
| JsString.Trim | src/schemas/cowValidation.ts:8 | the result is the slice of the input starting at the first non-white-space character, everything cut off on either side is white space, and the result neither starts nor ends with white space |
| JsString.TrimUnchanged | src/schemas/cowValidation.ts:8 | a string that neither starts nor ends with white space is its own trim |
| JsString.TrimPadding | src/schemas/cowValidation.ts:8-12 | one white-space character on each side of such a string is removed by trimming |
| JsString.TrimEmptyIffBlank | src/schemas/cowValidation.ts:7-9 | trimming gives `''` exactly when the input is all white space |
| JsString.TrimIdempotent | src/schemas/cowValidation.ts:8-12 | trimming twice is trimming once |
| JsString.LowerChar | src/context/CowContext.tsx:110 | upper-case ASCII letters map to lower case; every other character is unchanged |
| JsString.Lower | src/context/CowContext.tsx:110 | case folding keeps the length and folds each character |
| JsString.LowerIdempotent | src/context/CowContext.tsx:110 | folding twice is folding once |
| JsString.Includes | src/context/CowContext.tsx:110 | a haystack that begins with the needle includes it, and a needle longer than the haystack is never included |
| JsString.IncludesIff | src/context/CowContext.tsx:110 | `includes` holds exactly when the needle occurs at some index of the haystack |
| JsString.IncludesEmptyAndSelf | src/context/CowContext.tsx:110 | every string includes `''` and itself |
| JsString.Split | src/constant/strings.ts:10 | splitting gives at least one piece, and no piece contains the separator |
| JsString.JoinSplit | src/constant/strings.ts:10 | joining the pieces with the separator gives back the string |
| JsString.SplitJoin | src/constant/strings.ts:10 | splitting the join of separator-free pieces gives back the pieces |
| JsString.SplitCount | src/constant/strings.ts:10 | there is one piece more than there are separators |
| JsString.StrLeTotal | src/hooks/useCowList.ts:20 | the default sort order is total |
| JsString.StrLeAntisymmetric | src/hooks/useCowList.ts:20 | the default sort order is antisymmetric |
| JsString.StrLeTransitive | src/hooks/useCowList.ts:20 | the default sort order is transitive |
| JsArray.Keep | src/context/CowContext.tsx:107-119 | `filter` keeps exactly the elements that pass, never more often than they occur |
| JsArray.KeepIsSubsequence | src/context/CowContext.tsx:107-119 | the filtered sequence is a subsequence of the input, in order |
| JsArray.KeepCount | src/storage/cowStorage.ts:54 | every passing element is kept as often as it occurs; failing elements are dropped |
| JsArray.KeepAll | src/context/CowContext.tsx:107-119 | when every element passes, filtering returns the input |
| JsArray.KeepIdempotent | src/storage/cowStorage.ts:54 | filtering twice by the same predicate is filtering once |
| JsArray.FindIndex | src/storage/cowStorage.ts:40 | the result is `-1` exactly when nothing passes; otherwise it is the first passing index |
| JsArray.Find | src/context/CowContext.tsx:103 | the result is absent exactly when nothing passes; otherwise it is the first passing element |
| JsArray.Distinct | src/hooks/useCowList.ts:20 | the result holds exactly the input's values, each once |
| JsArray.Insert | src/hooks/useCowList.ts:20 | inserting into a sorted sequence keeps it sorted and adds exactly one occurrence |
| JsArray.SortStrings | src/hooks/useCowList.ts:20 | the result is sorted and is a permutation of the input |
| JsArray.SortedPairwise | src/hooks/useCowList.ts:20 | in a sorted sequence every element is at most every later one |
| JsArray.SortedNoDupsStrict | src/hooks/useCowList.ts:20 | a sorted sequence without repeats is strictly ascending |
| Storage.Parsed | src/storage/cowStorage.ts:19 | a stored list is read back as it was; nothing stored reads as `[]` |
| Storage.ReadResult | src/storage/cowStorage.ts:16-24 | a read gives the stored list; it gives `[]` when nothing is stored or the read or parse fails |
| Storage.IndexOfId | src/storage/cowStorage.ts:40 | gives `-1` exactly when no entry has the id; otherwise the first entry with it |
| Storage.ReplaceFirst | src/storage/cowStorage.ts:39-44 | only the first entry with the id is replaced; the length and every other entry are kept; with no match the list is unchanged |
| Storage.WithoutId | src/storage/cowStorage.ts:54 | the result holds every entry without the id, as many times as the input does, and none with it |
| Storage.ReplaceFirstUnchangedIff | src/storage/cowStorage.ts:39-44 | replacing leaves the list as it was exactly when there is no match or the first match already equals the update |
| Storage.WithoutIdIdempotent | src/storage/cowStorage.ts:53-55 | deleting an id twice is deleting it once, and the result keeps the original order |
| Storage.CowStorage.constructor | src/storage/cowStorage.ts:4 | the key starts with the given value |
| Storage.CowStorage.SaveCows | src/storage/cowStorage.ts:7-14 | a successful save stores the list, and a later read gives it back; a failed save changes nothing and is reported |
| Storage.CowStorage.GetCows | src/storage/cowStorage.ts:16-24 | never fails; gives the stored list, or `[]` when nothing is stored or the read fails |
| Storage.CowStorage.AddCow | src/storage/cowStorage.ts:26-35 | on success the key holds the list read plus the cow at the end (just the cow when the read failed); a failed write changes nothing and is reported |
| Storage.CowStorage.UpdateCow | src/storage/cowStorage.ts:37-49 | with no match nothing is written and the call succeeds; otherwise the first match is replaced and written back, and a failed write is reported |
| Storage.CowStorage.DeleteCow | src/storage/cowStorage.ts:51-60 | on success the key holds the list read minus every entry with the id; a failed write changes nothing and is reported |
| Storage.CowStorage.ClearAll | src/storage/cowStorage.ts:62-69 | on success the key is removed and a later read gives `[]`; a failure changes nothing and is reported |
| CowContext.Matches | src/context/CowContext.tsx:107-118 | the default selectors pass every cow; a passing cow contains a non-empty query in its folded tag, has the selected status and sits in the selected pen |
| CowContext.FilterCows | src/context/CowContext.tsx:106-119 | the view holds exactly the cows that pass search, status and pen |
| CowContext.FilterCowsExact | src/context/CowContext.tsx:106-119 | the view is a subsequence of the collection and keeps each passing cow as often as it occurs |
| CowContext.FilterCowsCons | src/context/CowContext.tsx:107 | the view of a collection with a cow in front is that cow (if it passes), then the view of the rest |
| CowContext.FilterDefaultIsIdentity | src/context/CowContext.tsx:36-40 | with search `''`, status `'All'` and pen `'All'`, the view is the whole collection |
| CowContext.PenSelector | src/context/CowContext.tsx:115-116 | the pen selector `'All'` matches every pen, a pen named `All` included; any other selector matches only its own pen |
| CowContext.SearchIgnoresCase | src/context/CowContext.tsx:108-110 | the search ignores ASCII case in both the query and the tag |
| CowContext.SearchIsSubstring | src/context/CowContext.tsx:108-110 | a non-empty query matches exactly when the folded query occurs in the folded tag |
| CowContext.FindById | src/context/CowContext.tsx:102-104 | absent exactly when no cow has the id; otherwise the first cow with it |
| CowContext.ReplaceAll | src/context/CowContext.tsx:68-70 | every cow with the id becomes the update; every other cow and the length are kept |
| CowContext.ReplaceFirstIsReplaceAll | src/context/CowContext.tsx:65-75 | when ids are unique, storage's first-match replacement equals memory's replace-all |
| CowContext.UpdatesKeepUniqueIds | src/context/CowContext.tsx:65-85 | updating and deleting keep ids unique |
| CowContext.WithoutIdKeepsUniqueIds | src/context/CowContext.tsx:80 | deleting keeps ids unique |
| CowContext.CowStore.constructor | src/context/CowContext.tsx:35-41 | the store starts with no cows, the default filters, and loading on |
| CowContext.CowStore.LoadCows | src/context/CowContext.tsx:43-53 | memory becomes what storage returns (`[]` on a failed read); loading ends false; the filters are kept |
| CowContext.CowStore.AddCow | src/context/CowContext.tsx:55-63 | after a successful write the cow is appended in memory; a failure changes neither and is reported; sync is kept |
| CowContext.CowStore.UpdateCow | src/context/CowContext.tsx:65-75 | after storage succeeds, every cow with the id is replaced in memory; a failure changes nothing; a failed read writes nothing yet succeeds |
| CowContext.CowStore.DeleteCow | src/context/CowContext.tsx:77-85 | after a successful write, every cow with the id is removed from memory; a failure changes nothing and is reported |
| CowContext.CowStore.ClearAllCows | src/context/CowContext.tsx:87-100 | on success memory is empty, the filters are reset and the key is removed; on failure nothing changes |
| CowContext.CowStore.GetCowById | src/context/CowContext.tsx:102-104 | absent exactly when no cow has the id; otherwise the first cow with it |
| CowContext.CowStore.SetFilters | src/context/CowContext.tsx:36 | the filters are replaced; the cows are kept |
| CowContext.CowStore.GetFilteredCows | src/context/CowContext.tsx:106-120 | the view of memory under the active filters; memory is not changed |
| CowContext.CowStore.AddEvent | src/context/CowContext.tsx:122-133 | an unknown id changes nothing; otherwise the cow with the event in front goes through `updateCow` |
| CowContext.AddEventResult | src/context/CowContext.tsx:122-133 | on any collection, the cow found afterwards has the event first, `lastEventDate` is the event's date, every other field is kept, and the history invariant holds |
| CowValidation.EarTagError | src/schemas/cowValidation.ts:7-13 | required fails exactly on blank input; exists fails exactly when some cow's tag equals the trimmed input (case-sensitive) |
| CowValidation.SexError | src/schemas/cowValidation.ts:14-16 | passes exactly on `Male` or `Female`; every failure reports the sex-required error |
| CowValidation.PenError | src/schemas/cowValidation.ts:17-19 | passes exactly when the pen is not blank |
| CowValidation.StatusError | src/schemas/cowValidation.ts:20-22 | passes exactly on the three statuses; `''` reports required |
| CowValidation.WeightError | src/schemas/cowValidation.ts:23-28 | passes exactly when the weight is empty or parses to a number above zero |
| CowValidation.ValidateForm | src/schemas/cowValidation.ts:5-30 | the status check never fails; the sex passes exactly when chosen, the pen exactly when not blank, the tag exactly when not blank and not already taken after trimming, the weight exactly when empty or a number above zero |
| CowValidation.ValidFormIff | src/schemas/cowValidation.ts:5-30 | the form passes exactly when the tag is non-blank and new, a sex is chosen, the pen is non-blank and the weight is empty or positive; the status check never fails |
| CowValidation.StatusLabelPasses | src/schemas/cowValidation.ts:20-22 | every status the form can hold passes the status check |
| CowValidation.OtherCaseIsNewTag | src/schemas/cowValidation.ts:10-13 | `cow-001` is accepted as new beside a cow tagged `COW-001`: the comparison is case-sensitive |
| CowValidation.PaddedTagExists | src/schemas/cowValidation.ts:10-13 | ` COW-001 ` is reported as existing beside `COW-001`: the input is trimmed before comparing |
| CowValidation.SpacesOnlyTagRequired | src/schemas/cowValidation.ts:7-9 | a tag of only spaces reports the required error, whatever the existing cows |
| AddCow.InitialValuesNeedInput | src/hooks/useAddCow.ts:19-25 | the untouched form fails exactly on the tag, the sex and the pen |
| AddCow.ParsedWeight | src/hooks/useAddCow.ts:47 | the weight is absent when the field is empty; otherwise it is the parsed number |
| AddCow.NewCow | src/hooks/useAddCow.ts:33-51 | the tag and pen are trimmed; there is exactly one `Created` event dated `now`, described as `Cow <tag> created`; `createdAt` and `lastEventDate` are `now` |
| AddCow.ValidFormMakesGoodCow | src/hooks/useAddCow.ts:31-51 | a cow built from a form that passes has a well-formed history, a new non-empty tag, a non-blank pen and a positive weight, and it keeps tags unique |
| AddCow.ApplyHandler | src/hooks/useAddCow.ts:65-71 | each handler sets `sex` or `status` to its own spelling and nothing else |
| AddCow.HandlersSatisfyChecks | src/hooks/useAddCow.ts:65-71 | after a sex handler the sex check passes; the status check always passes; the text fields are kept |
| AddCow.AddCowForm.constructor | src/hooks/useAddCow.ts:14-15 | the screen starts not submitting, over the shared store |
| AddCow.AddCowForm.HandleSubmit | src/hooks/useAddCow.ts:31-63 | submitting ends on both outcomes; the screen goes back only when the add succeeded; memory gains the new cow exactly then; storage holds the list read plus the new cow after a successful write and is unchanged otherwise; the filters and the loading flag are kept |
| AddCow.AddCowForm.HandleCancel | src/hooks/useAddCow.ts:27-29 | goes back once and saves nothing |
| CowList.Pens | src/hooks/useCowList.ts:20 | the pen of each cow, in order |
| CowList.AllPensOf | src/hooks/useCowList.ts:20 | the pen list is sorted, has no repeats, holds every cow's pen and nothing else |
| CowList.AllPensExactlyOnce | src/hooks/useCowList.ts:20 | each pen of the collection occurs once; any other string occurs zero times |
| CowList.AllPensStrictlyAscending | src/hooks/useCowList.ts:20 | the pen list is strictly ascending |
| CowList.OfferedPenIsNeverEmpty | src/hooks/useCowList.ts:20 | choosing any offered pen, with no search and all statuses, shows at least one cow |
| CowList.StatusOptionsComplete | src/hooks/useCowList.ts:22-27 | the options are `'All'`, then the three statuses in order; every selector is offered exactly once |
| CowList.StatusColor | src/hooks/useCowList.ts:40-51 | every status gets success, warning or danger |
| CowList.GradientColors | src/hooks/useCowList.ts:53-64 | every pair ends with the gradient end, and its start is never the default or the end |
| CowList.StatusColoursDistinct | src/hooks/useCowList.ts:40-64 | Active is success, In Treatment is warning, Deceased is danger; different statuses get different colours and gradients |
| CowList.WithSearch | src/hooks/useCowList.ts:66-68 | the search changes and the other two filter fields are kept |
| CowList.WithStatus | src/hooks/useCowList.ts:70-72 | the status selector changes and the other two filter fields are kept |
| CowList.WithPen | src/hooks/useCowList.ts:74-76 | the pen selector changes and the other two filter fields are kept |
| CowList.WideningKeepsMatches | src/hooks/useCowList.ts:66-76 | widening one selector to its wildcard never hides a cow |
| CowList.FilterUpdatesCommute | src/hooks/useCowList.ts:66-76 | updates of different fields commute; a repeated update of one field keeps only the last |
| CowList.CowListScreen.constructor | src/hooks/useCowList.ts:16-18 | every flag starts false |
| CowList.CowListScreen.FilteredCows | src/hooks/useCowList.ts:15 | the store's view under its filters |
| CowList.CowListScreen.PenChoices | src/hooks/useCowList.ts:20 | the store's pens: sorted, without repeats, holding exactly the pens of the store's cows |
| CowList.CowListScreen.OnRefresh | src/hooks/useCowList.ts:29-33 | reloads the store from storage; refreshing ends false |
| CowList.CowListScreen.HandleClearData | src/hooks/useCowList.ts:86-88 | opens the confirmation |
| CowList.CowListScreen.HandleCloseClearConfirmation | src/hooks/useCowList.ts:90-92 | closes the confirmation |
| CowList.CowListScreen.HandleConfirmClearData | src/hooks/useCowList.ts:94-106 | clearing ends false on both outcomes; the confirmation closes, memory empties, the filters reset and the key is removed only when the clear succeeded, otherwise memory and storage are unchanged; the loading flag is kept |
| CowList.CowListScreen.HandleSearchChange | src/hooks/useCowList.ts:66-68 | only the search field of the store's filters changes |
| CowList.CowListScreen.HandleStatusFilter | src/hooks/useCowList.ts:70-72 | only the status field of the store's filters changes |
| CowList.CowListScreen.HandlePenFilter | src/hooks/useCowList.ts:74-76 | only the pen field of the store's filters changes |
| CowList.CowListScreen.HandleAllPensPress | src/hooks/useCowList.ts:110-112 | the pen selector becomes `'All'` and the rest is kept |
| CowDetail.DetailStatusColor | src/hooks/useCowDetail.ts:28-39 | the three status spellings get the list screen's colours; every other string is gray |
| CowDetail.DetailGradientColors | src/hooks/useCowDetail.ts:41-52 | the pair ends with the gradient end and agrees with the list screen's pair for every status |
| CowDetail.ScreensAgree | src/hooks/useCowDetail.ts:28-52 | the detail and list screens colour every record alike |
| CowDetail.CowDetailView | src/hooks/useCowDetail.ts:14-55 | the cow is the lookup of the route's id; an absent cow gives the default gradient and gray; a present cow gives its status colours |
| CowDetail.StoreDetailView | src/hooks/useCowDetail.ts:14-16 | the cow is the store's `getCowById`; the badge is gray exactly when there is none |
| CowDetail.FallbackIffAbsent | src/hooks/useCowDetail.ts:54-55 | gray and the default gradient appear exactly when no record has the id |
| Strings.Walk | src/constant/strings.ts:13-19 | descending through a string, or by a missing key, reaches nothing |
| Strings.WalkAppend | src/constant/strings.ts:13-19 | walking two key lists in a row is walking their concatenation |
| Strings.StringAt | src/constant/strings.ts:9-22 | the result is the path itself or the string leaf the keys reach |
| Strings.GetString | src/constant/strings.ts:9-22 | the loop returns the leaf the dot-split keys reach, or the path on a miss, a non-object or an object result |
| Strings.MissOrObjectGivesPath | src/constant/strings.ts:15-21 | a missing key, a string on the way or an object at the end gives the path back |
| Strings.LeafByJoinedKeys | src/constant/strings.ts:10-21 | dot-free keys that reach a string name that string when joined with dots |
| Strings.PrefixAtLeafGivesPath | src/constant/strings.ts:14-18 | once a prefix of the keys reaches a string, the whole path gives the path back |
| Strings.StepsBound | src/constant/strings.ts:10-19 | the loop runs at most once per segment, and there is one segment more than there are dots |
| SampleData.SevenDaysAgo | src/utils/sampleData.ts:5 | `now` minus 7 × 86 400 000 ms |
| SampleData.FourteenDaysAgo | src/utils/sampleData.ts:6 | `now` minus 14 × 86 400 000 ms, earlier than seven days ago |
| SampleData.GenerateSampleCows | src/utils/sampleData.ts:3-80 | three cows with ids `1`–`3`, tags `COW-001`–`COW-003`, statuses Active, In Treatment, Active and pens A1, A1, B2 |
| SampleData.SampleUnique | src/utils/sampleData.ts:8-79 | the sample ids and ear tags are pairwise distinct |
| SampleData.SampleHistories | src/utils/sampleData.ts:17-76 | every sample cow has a well-formed history |
| SampleData.SampleNewestFirst | src/utils/sampleData.ts:17-76 | when rendering keeps the order of times, every sample history is newest first |
| SampleData.ActiveSamples | src/utils/sampleData.ts:13-66 | filtering by status Active shows COW-001 and COW-003 |
| SampleData.StatusDecides | src/context/CowContext.tsx:106-120 | with an empty search and every pen, a cow is shown exactly when its status is the selected one |
| SampleData.SearchSample | src/utils/sampleData.ts:37 | searching for `cow-002` shows COW-002 alone |

## Left out

- Screens, presentational components, navigation, `App.tsx` and styling are not modelled. This includes `handleCowPress`, `handleAddCowPress`, `keyExtractor`, `useLayoutEffect` and the `useCows` guard against use outside the provider.
- `formatDate` and `formatShortDate` are not modelled, because they depend on the clock and the locale. So are `Date.now()`, `toISOString` and `toLocaleDateString`. Instead, timestamps, ids and ISO strings are parameters (`now`, `cowId`, `eventId`, `nowMs`, `toIso`).
- AsyncStorage and `JSON.stringify`/`JSON.parse` are foreign calls. A boolean outcome parameter stands for each call, and JSON is taken to be an exact round trip. A stored value that parses to something other than a list of cows is not modelled.
- `console.error` logging is not modelled.
- Async interleaving is not modelled. Each store operation is one atomic step, so races between overlapping writes are not captured. Neither is `addEvent` reading a stale `cows` closure.
- `Number()` parsing is the parameter `number`, where `None` stands for NaN. Weights and gains are exact reals, not IEEE doubles, so the sample gains 1.2 and 0.8 are exact.
- Yup's schema machinery is not modelled, only its field predicates. The model does not say which error Yup reports first, or how it handles `undefined`.
- `strings.data` (the strings table itself) is not part of this model, so `getString` takes the tree as a parameter. The prototype-chain behaviour of `in` (such as `toString` in `{}`) is not modelled, and neither are arrays or non-string leaves in the table.
- Colour values are modelled as the palette names the maps use; their hex strings are not modelled. The other palette entries and the fonts are not modelled.
- The detail screen's handling of a status outside the three is kept only for `DetailStatusColor`, which takes any string. `GradientColors`, `DetailGradientColors` and `StatusColor` take a `CowStatus`, which cannot be a fourth value, so their `default` branches are not modelled.
- Lower: folds ASCII letters only, not the full Unicode case mapping of `toLowerCase`.
- StrLe: compares whole characters (code points), while JavaScript's default sort compares UTF-16 code units. The two orders differ only for characters outside the Basic Multilingual Plane.
- SampleNewestFirst: assumes that `toIso` keeps the order of times, as `toISOString` does for years 0 to 9999.
