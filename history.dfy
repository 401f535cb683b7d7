/**
 * The bounded history of past rounds kept in browser storage
 * (src/features/history.ts). The storage slot under the key "lottoHistory"
 * is a field of a class; what the slot holds is abstracted to whether the
 * read finds nothing, an empty string, text that does not parse, or a list
 * of entries.
 */
module History {
  import opened Lotto

  /** MAX_HISTORY_COUNT: how many entries the history keeps at most. */
  const MaxHistoryCount: nat := 100

  /** One round: the tickets bought and the draw they were checked against. */
  datatype LottoHistoryEntry = LottoHistoryEntry(
    id: string,
    lottos: seq<seq<int>>,
    winningLotto: WinningLotto,
    createdAt: string)

  /** What reading the storage slot yields. */
  datatype StorageItem =
    | Missing                                    // getItem returns null
    | EmptyString                                // a falsy stored string
    | Malformed                                  // JSON.parse throws
    | Stored(history: seq<LottoHistoryEntry>)    // a parsed list of entries

  function Min(a: int, b: int): int {
    if a <= b then a else b
  }

  /**
   * `[entry, ...history].slice(0, MAX_HISTORY_COUNT)`: the new entry first,
   * followed by as many of the previous entries, in their order, as fit.
   */
  function PrependBounded(entry: LottoHistoryEntry, history: seq<LottoHistoryEntry>): (r: seq<LottoHistoryEntry>)
    ensures 0 < |r| <= MaxHistoryCount
    ensures r[0] == entry
    ensures r[1..] == history[..Min(MaxHistoryCount - 1, |history|)]
    ensures |history| < MaxHistoryCount ==> |r| == |history| + 1 && r[1..] == history
    ensures |history| >= MaxHistoryCount ==> |r| == MaxHistoryCount
  {
    var all := [entry] + history;
    assert all[1..] == history;
    all[..Min(MaxHistoryCount, |all|)]
  }

  /** The storage slot the history lives in. */
  class LottoHistoryStorage {
    var item: StorageItem

    constructor (item: StorageItem)
      ensures this.item == item
    {
      this.item := item;
    }

    /** getLottoHistory: the stored list, or the empty list when the slot is absent, empty or unreadable. */
    function GetLottoHistory(): (h: seq<LottoHistoryEntry>)
      reads this
      ensures item.Stored? ==> h == item.history
      ensures item.Missing? || item.EmptyString? || item.Malformed? ==> h == []
    {
      match item
      case Stored(history) => history
      case _ => []
    }

    /**
     * addLottoHistory: read the history, put `entry` in front, keep at most
     * MaxHistoryCount entries and write the list back.
     */
    method AddLottoHistory(entry: LottoHistoryEntry)
      modifies this
      ensures item == Stored(PrependBounded(entry, old(GetLottoHistory())))
      ensures GetLottoHistory() == ([entry] + old(GetLottoHistory()))[..Min(MaxHistoryCount, |old(GetLottoHistory())| + 1)]
      ensures |GetLottoHistory()| <= MaxHistoryCount && GetLottoHistory()[0] == entry
    {
      var history := GetLottoHistory();
      item := Stored(PrependBounded(entry, history));
    }
  }

  /** The reversed list. */
  function Reversed<T>(s: seq<T>): (r: seq<T>)
    ensures |r| == |s|
    ensures forall i :: 0 <= i < |s| ==> r[i] == s[|s| - 1 - i]
  {
    if |s| == 0 then [] else [s[|s| - 1]] + Reversed(s[..|s| - 1])
  }

  /** The history after adding `entries` one after another, first to last. */
  function AddAll(history: seq<LottoHistoryEntry>, entries: seq<LottoHistoryEntry>): seq<LottoHistoryEntry> {
    if |entries| == 0 then history
    else PrependBounded(entries[|entries| - 1], AddAll(history, entries[..|entries| - 1]))
  }

  /** Cutting a list before putting an element in front is harmless if the final cut is no longer. */
  lemma PrependTake<T>(x: T, s: seq<T>, m: nat, k: nat)
    requires m <= |s| && k <= m + 1
    ensures ([x] + s[..m])[..k] == ([x] + s)[..k]
  {
  }

  /**
   * Any number of additions leaves the most recent entries, newest first,
   * followed by the oldest history, cut to MaxHistoryCount (a history that
   * is already too long is cut only once something is added).
   */
  lemma {:induction false} AddAllKeepsMostRecent(history: seq<LottoHistoryEntry>, entries: seq<LottoHistoryEntry>)
    requires |entries| > 0 || |history| <= MaxHistoryCount
    ensures AddAll(history, entries)
         == (Reversed(entries) + history)[..Min(MaxHistoryCount, |entries| + |history|)]
  {
    if |entries| == 0 {
      assert Reversed(entries) + history == history;
    } else {
      var init, last := entries[..|entries| - 1], entries[|entries| - 1];
      var rest := Reversed(init) + history;
      assert Reversed(entries) + history == [last] + rest;
      if |init| == 0 {
        assert rest == history;
      } else {
        AddAllKeepsMostRecent(history, init);
        var m := Min(MaxHistoryCount, |rest|);
        PrependTake(last, rest, m, Min(MaxHistoryCount, m + 1));
      }
    }
  }

  /**
   * From an empty history, 101 distinct additions leave exactly the last 100,
   * newest first: the first entry ever added is gone.
   */
  lemma OldestDroppedAfter101Adds(entries: seq<LottoHistoryEntry>)
    requires |entries| == MaxHistoryCount + 1
    requires entries[0] !in entries[1..]
    ensures AddAll([], entries) == Reversed(entries[1..])
    ensures |AddAll([], entries)| == MaxHistoryCount
    ensures entries[0] !in AddAll([], entries)
  {
    AddAllKeepsMostRecent([], entries);
    assert Reversed(entries) + [] == Reversed(entries);
    assert Reversed(entries)[..MaxHistoryCount] == Reversed(entries[1..]);
  }
}
