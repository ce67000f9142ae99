/**
 * The persistence layer: the whole collection of cows lives under one key of
 * the device's key-value store.  Every write reads the full list, changes it
 * and writes it back.  Serialisation is taken to be an exact round trip, so
 * the key holds either nothing or a list of cows.  The outcome of each call
 * into the key-value store is a parameter: `readOk` (the read and the parse
 * succeeded), `writeOk` (the write succeeded), `removeOk` (the removal
 * succeeded).  A thrown error is a `false` result.
 */
module Storage {
  import opened Wrappers
  import opened CowTypes
  import opened JsArray

  /** The single key the collection is stored under. */
  const CowsStorageKey: string := "@cows_data"

  /** The list a successful read yields: the stored list, or `[]` when nothing is stored. */
  function Parsed(value: Option<seq<Cow>>): (r: seq<Cow>)
    ensures value == Some(r) || (value.None? && r == [])
  {
    match value
    case None => []
    case Some(cows) => cows
  }

  /** The list `getCows` returns: a failed read or parse also yields `[]`. */
  function ReadResult(value: Option<seq<Cow>>, readOk: bool): (r: seq<Cow>)
    ensures value.None? || !readOk ==> r == []
    ensures value.Some? && readOk ==> r == value.value
  {
    if readOk then Parsed(value) else []
  }

  /** `findIndex(cow => cow.id === id)`. */
  function IndexOfId(cows: seq<Cow>, id: string): (k: int)
    ensures -1 <= k < |cows|
    ensures k == -1 <==> forall i :: 0 <= i < |cows| ==> cows[i].id != id
    ensures k != -1 ==> cows[k].id == id && forall i :: 0 <= i < k ==> cows[i].id != id
  {
    FindIndex(cows, (c: Cow) => c.id == id)
  }

  /** The list `updateCow` writes: the first entry with the same id replaced, or the list unchanged. */
  function ReplaceFirst(cows: seq<Cow>, updated: Cow): (r: seq<Cow>)
    ensures |r| == |cows|
    ensures IndexOfId(cows, updated.id) == -1 ==> r == cows
    ensures forall i :: 0 <= i < |cows| ==>
      r[i] == if i == IndexOfId(cows, updated.id) then updated else cows[i]
  {
    var k := IndexOfId(cows, updated.id);
    if k == -1 then cows else cows[k := updated]
  }

  /** The list `deleteCow` writes: `cows.filter(cow => cow.id !== id)`. */
  function WithoutId(cows: seq<Cow>, id: string): (r: seq<Cow>)
    ensures forall i :: 0 <= i < |r| ==> r[i].id != id && r[i] in cows
    ensures forall i :: 0 <= i < |cows| && cows[i].id != id ==> cows[i] in r
    ensures forall x :: multiset(r)[x] == if x.id != id then multiset(cows)[x] else 0
  {
    var keep := (c: Cow) => c.id != id;
    assert forall x :: multiset(Keep(cows, keep))[x] == if x.id != id then multiset(cows)[x] else 0 by {
      forall x ensures multiset(Keep(cows, keep))[x] == if x.id != id then multiset(cows)[x] else 0 {
        KeepCount(cows, keep, x);
      }
    }
    Keep(cows, keep)
  }

  /** Replacing by id leaves the list as it was exactly when no entry has the id or the first one already equals the update. */
  lemma ReplaceFirstUnchangedIff(cows: seq<Cow>, updated: Cow)
    ensures var k := IndexOfId(cows, updated.id);
      ReplaceFirst(cows, updated) == cows <==> k == -1 || cows[k] == updated
  {
    var k := IndexOfId(cows, updated.id);
    if k != -1 && ReplaceFirst(cows, updated) == cows {
      assert ReplaceFirst(cows, updated)[k] == updated;
    }
  }

  /** Deleting the same id twice leaves what deleting it once left, keeping the order of the rest. */
  lemma WithoutIdIdempotent(cows: seq<Cow>, id: string)
    ensures WithoutId(WithoutId(cows, id), id) == WithoutId(cows, id)
    ensures IsSubsequence(WithoutId(cows, id), cows)
  {
    KeepIdempotent(cows, (c: Cow) => c.id != id);
    KeepIsSubsequence(cows, (c: Cow) => c.id != id);
  }

  /** The device's key-value store, seen through the one key the app uses. */
  class CowStorage {
    /** The value under `CowsStorageKey`, if any. */
    var stored: Option<seq<Cow>>

    constructor (initial: Option<seq<Cow>>)
      ensures stored == initial
    {
      stored := initial;
    }

    /** What a successful `getCows` returns now. */
    function Loaded(): seq<Cow>
      reads this
    {
      Parsed(stored)
    }

    /** `saveCows`: overwrites the key with `cows`; a failed write leaves it as it was and is reported. */
    method SaveCows(cows: seq<Cow>, writeOk: bool) returns (ok: bool)
      modifies this
      ensures ok == writeOk
      ensures stored == if ok then Some(cows) else old(stored)
      ensures ok ==> Loaded() == cows
    {
      if writeOk {
        stored := Some(cows);
      }
      ok := writeOk;
    }

    /** `getCows`: never fails; nothing stored, or a failed read or parse, gives `[]`. */
    method GetCows(readOk: bool) returns (cows: seq<Cow>)
      ensures stored.None? || !readOk ==> cows == []
      ensures stored.Some? && readOk ==> cows == stored.value
    {
      if !readOk {
        cows := [];
      } else if stored.None? {
        cows := [];
      } else {
        cows := stored.value;
      }
    }

    /** `addCow`: appends to the list read (`[]` if the read failed) and writes the result back. */
    method AddCow(cow: Cow, readOk: bool, writeOk: bool) returns (ok: bool)
      modifies this
      ensures ok == writeOk
      ensures stored == if ok then Some(ReadResult(old(stored), readOk) + [cow]) else old(stored)
    {
      var cows := GetCows(readOk);
      cows := cows + [cow];
      ok := SaveCows(cows, writeOk);
    }

    /**
     * `updateCow`: replaces the first entry with the same id and writes the
     * list back; when no entry has the id nothing is written and the call succeeds.
     */
    method UpdateCow(updated: Cow, readOk: bool, writeOk: bool) returns (ok: bool)
      modifies this
      ensures var before := ReadResult(old(stored), readOk);
        if IndexOfId(before, updated.id) == -1 then ok && stored == old(stored)
        else ok == writeOk && stored == if ok then Some(ReplaceFirst(before, updated)) else old(stored)
    {
      var cows := GetCows(readOk);
      var index := IndexOfId(cows, updated.id);
      if index != -1 {
        cows := cows[index := updated];
        ok := SaveCows(cows, writeOk);
      } else {
        ok := true;
      }
    }

    /** `deleteCow`: writes back the list read, without the entries that have the id. */
    method DeleteCow(id: string, readOk: bool, writeOk: bool) returns (ok: bool)
      modifies this
      ensures ok == writeOk
      ensures stored == if ok then Some(WithoutId(ReadResult(old(stored), readOk), id)) else old(stored)
    {
      var cows := GetCows(readOk);
      var filtered := WithoutId(cows, id);
      ok := SaveCows(filtered, writeOk);
    }

    /** `clearAll`: removes the key, after which a read gives `[]`. */
    method ClearAll(removeOk: bool) returns (ok: bool)
      modifies this
      ensures ok == removeOk
      ensures stored == if ok then None else old(stored)
      ensures ok ==> Loaded() == []
    {
      if removeOk {
        stored := None;
      }
      ok := removeOk;
    }
  }
}
