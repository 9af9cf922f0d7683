/**
 * The item sync use case: a staleness rule over a stored timestamp, a
 * conditional fetch that persists the timestamp and writes the store, the
 * projection of store snapshots into summaries, and the favourite toggle.
 * The clock reading and the outcome of the remote call are parameters.
 */
module Beers {
  import opened Wrappers
  import opened DataStates
  import opened Remote
  import opened Database

  /** What the item flows carry: the item with the longest name and all items. */
  datatype ItemDataSummary = ItemDataSummary(longestItem: Option<Beer>, allItems: seq<Beer>)

  /** `60 * 60 * 1000` */
  const OneHourMs: int := 3_600_000

  /** The message of the error state the network path emits. */
  const DownloadError: string := "Unable to download breed list"

  /** `isBeerListStale`: more than one hour has passed since the last download. */
  predicate IsStale(lastDownload: int, now: int) {
    lastDownload + OneHourMs < now
  }

  /** Exactly one hour after a download the list is not yet stale; one millisecond later it is. */
  lemma StaleBoundary(lastDownload: int, now: int)
    ensures now == lastDownload + 3_600_000 ==> !IsStale(lastDownload, now)
    ensures now == lastDownload + 3_600_001 ==> IsStale(lastDownload, now)
    ensures IsStale(lastDownload, now) <==> now - lastDownload > 3_600_000
  {
  }

  /** Once stale, a list stays stale as the clock advances; storing `now` makes it fresh for an hour. */
  lemma StaleMonotone(lastDownload: int, now: int, later: int)
    requires now <= later
    ensures IsStale(lastDownload, now) ==> IsStale(lastDownload, later)
    ensures later <= now + OneHourMs ==> !IsStale(now, later)
  {
  }

  /** `beerResult.map { Beer(0L, it.name.orEmpty(), 0L) }` */
  function ToBeers(results: seq<BeerResult>): (r: seq<Beer>)
    ensures |r| == |results|
    ensures forall i :: 0 <= i < |r| ==>
      r[i].id == 0 && r[i].favorite == 0 && r[i].name == results[i].name.GetOr("")
  {
    seq(|results|, i requires 0 <= i < |results| => Beer(0, results[i].name.GetOr(""), 0))
  }

  /**
   * The state `getBeersFromNetwork` returns for an outcome of the remote call:
   * exactly one of error, empty and data is set, and never loading.
   */
  function NetworkState(outcome: FetchOutcome): (r: DataState<ItemDataSummary>)
    ensures !r.loading
    ensures r.exception.Some? <==> outcome.Threw?
    ensures r.exception.Some? ==> r.exception.value == DownloadError
    ensures r.empty <==> outcome == Returned([])
    ensures r.data.Some? <==> outcome.Returned? && |outcome.results| > 0
    ensures r.data.Some? ==> r.data.value.longestItem.None? && r.data.value.allItems == ToBeers(outcome.results)
    ensures r.data.None? || r.exception.None?
  {
    match outcome
    case Threw => WithException(Some(DownloadError))
    case Returned(rs) =>
      if |rs| == 0 then Empty() else WithData(ItemDataSummary(None, ToBeers(rs)))
  }

  /**
   * The emissions of `refreshBeerIfStale` once it has decided whether to
   * fetch: always the loading marker first; the network state follows it
   * only when a fetch was made and brought no data.
   */
  function RefreshEmissions(fetch: bool, outcome: FetchOutcome): (r: seq<DataState<ItemDataSummary>>)
    ensures 1 <= |r| <= 2 && r[0] == Loading()
    ensures |r| == 2 <==> fetch && NetworkState(outcome).data.None?
    ensures |r| == 2 ==> r[1] == NetworkState(outcome) && !r[1].loading
  {
    if fetch && NetworkState(outcome).data.None? then [Loading(), NetworkState(outcome)]
    else [Loading()]
  }

  /** `maxByOrNull { it.name.length }` on a non-empty list: the first item of maximal name length. */
  function LongestIndex(items: seq<Beer>): (k: nat)
    requires |items| > 0
    ensures k < |items|
    ensures forall j :: 0 <= j < |items| ==> |items[j].name| <= |items[k].name|
    ensures forall j :: 0 <= j < k ==> |items[j].name| < |items[k].name|
  {
    if |items| == 1 then 0
    else
      var k := LongestIndex(items[..|items| - 1]);
      assert forall j :: 0 <= j < |items| - 1 ==> items[..|items| - 1][j] == items[j];
      if |items[k].name| < |items[|items| - 1].name| then |items| - 1 else k
  }

  /**
   * The `mapNotNull` step of `getBeerFromCache` for one store snapshot:
   * nothing for an empty snapshot, otherwise a data state holding the
   * snapshot and the first item of maximal name length.
   */
  function CacheState(items: seq<Beer>): (r: Option<DataState<ItemDataSummary>>)
    ensures r.None? <==> items == []
    ensures r.Some? ==>
      && r.value.data.Some?
      && r.value.exception.None? && !r.value.empty && !r.value.loading
      && r.value.data.value.allItems == items
      && r.value.data.value.longestItem == Some(items[LongestIndex(items)])
  {
    if items == [] then None
    else Some(WithData(ItemDataSummary(Some(items[LongestIndex(items)]), items)))
  }

  /** The store snapshots that hold at least one item, in the order observed. */
  function NonEmptySnapshots(snapshots: seq<seq<Beer>>): (r: seq<seq<Beer>>)
    ensures |r| <= |snapshots|
    ensures forall i :: 0 <= i < |r| ==> r[i] != []
    ensures forall x :: x in r <==> x in snapshots && x != []
    decreases |snapshots|
  {
    if |snapshots| == 0 then []
    else
      var front := snapshots[..|snapshots| - 1];
      var last := snapshots[|snapshots| - 1];
      assert snapshots == front + [last];
      if last == [] then NonEmptySnapshots(front) else NonEmptySnapshots(front) + [last]
  }

  /** One snapshot is kept exactly when it is non-empty. */
  lemma {:induction false} NonEmptySnapshotsSingle(x: seq<Beer>)
    ensures NonEmptySnapshots([x]) == if x == [] then [] else [x]
  {
    assert [x][..0] == [];
  }

  /**
   * Filtering a concatenation is concatenating the filtered parts: with
   * `NonEmptySnapshots([x])`, this fixes the result completely, so the
   * kept snapshots stay in the order observed and repeats are kept.
   */
  lemma {:induction false} NonEmptySnapshotsAppend(a: seq<seq<Beer>>, b: seq<seq<Beer>>)
    ensures NonEmptySnapshots(a + b) == NonEmptySnapshots(a) + NonEmptySnapshots(b)
    decreases |b|
  {
    if |b| == 0 {
      assert a + b == a;
    } else {
      var front := b[..|b| - 1];
      assert (a + b)[..|a + b| - 1] == a + front;
      assert (a + b)[|a + b| - 1] == b[|b| - 1];
      NonEmptySnapshotsAppend(a, front);
    }
  }

  /**
   * `getBeerFromCache`: the summaries emitted for a sequence of store
   * snapshots, one per non-empty snapshot, in order, each holding that
   * snapshot and its longest item; empty snapshots emit nothing.
   */
  function GetBeerFromCache(snapshots: seq<seq<Beer>>): (r: seq<DataState<ItemDataSummary>>)
    ensures |r| == |NonEmptySnapshots(snapshots)|
    ensures forall i :: 0 <= i < |r| ==> Some(r[i]) == CacheState(NonEmptySnapshots(snapshots)[i])
    ensures r == [] <==> forall i :: 0 <= i < |snapshots| ==> snapshots[i] == []
    ensures forall i :: 0 <= i < |r| ==>
      !r[i].loading && r[i].data.Some? && r[i].data.value.allItems != []
    decreases |snapshots|
  {
    if |snapshots| == 0 then []
    else
      var front := snapshots[..|snapshots| - 1];
      assert forall i :: 0 <= i < |front| ==> front[i] == snapshots[i];
      match CacheState(snapshots[|snapshots| - 1])
      case None => GetBeerFromCache(front)
      case Some(d) => GetBeerFromCache(front) + [d]
  }

  /** `beer.favorite != 1L`: the flag `updateBeerFavorite` writes for a row as the caller knows it. */
  predicate FavoriteTarget(beer: Beer) {
    beer.favorite != 1
  }

  /**
   * The target is `true` for 0 and for every value other than 1. On the
   * flags the store itself writes (0 and 1) it is the negation of
   * `isFavorited`; on any other value it leaves a favourited row favourited.
   */
  lemma FavoriteTargetCases(beer: Beer)
    ensures beer.favorite == 0 ==> FavoriteTarget(beer)
    ensures beer.favorite == 1 ==> !FavoriteTarget(beer)
    ensures beer.favorite != 0 && beer.favorite != 1 ==> FavoriteTarget(beer) && IsFavorited(beer)
    ensures beer.favorite == 0 || beer.favorite == 1 ==> FavoriteTarget(beer) == !IsFavorited(beer)
  {
  }

  /** Toggling a row read from a well-formed store inverts its favourite state, and only its own. */
  lemma ToggleListedRow(t: Table, i: nat)
    requires WellFormed(t)
    requires i < |t.rows|
    ensures var r := SetFavorite(t, t.rows[i].id, ToLong(FavoriteTarget(t.rows[i])));
      && WellFormed(r)
      && |RowsWithId(r.rows, t.rows[i].id)| == 1
      && IsFavorited(RowsWithId(r.rows, t.rows[i].id)[0]) == !IsFavorited(t.rows[i])
      && forall j :: 0 <= j < |t.rows| && j != i ==> r.rows[j] == t.rows[j]
  {
    var b := FavoriteTarget(t.rows[i]);
    UpdateThenSelect(t, i, b);
    var r := SetFavorite(t, t.rows[i].id, ToLong(b));
    forall j | 0 <= j < |t.rows| && j != i
      ensures r.rows[j] == t.rows[j]
    {
      assert t.rows[j].id != t.rows[i].id;
    }
  }

  /**
   * The favourite scenario the use-case tests walk through: a fresh store
   * receives "weissbier" and "Punk Ipa"; the cache shows both with
   * "weissbier" as longest; liking "Punk Ipa" sets its flag; downloading
   * the same list again keeps the like and adds nothing.
   */
  lemma FavoriteSurvivesRedownload()
    ensures var results := [BeerResult(Some("weissbier"), Some("A weissbier")),
                            BeerResult(Some("Punk Ipa"), Some("A Punk Ipa"))];
      var t1 := InsertAll(EmptyTable, ToBeers(results));
      var t2 := SetFavorite(t1, 2, ToLong(FavoriteTarget(Beer(2, "Punk Ipa", 0))));
      && t1.rows == [Beer(1, "weissbier", 0), Beer(2, "Punk Ipa", 0)]
      && CacheState(t1.rows) == Some(WithData(ItemDataSummary(Some(Beer(1, "weissbier", 0)), t1.rows)))
      && t2.rows == [Beer(1, "weissbier", 0), Beer(2, "Punk Ipa", 1)]
      && InsertAll(t2, ToBeers(results)) == t2
  {
    var results := [BeerResult(Some("weissbier"), Some("A weissbier")),
                    BeerResult(Some("Punk Ipa"), Some("A Punk Ipa"))];
    var beers := ToBeers(results);
    assert beers[0].name == "weissbier" && beers[1].name == "Punk Ipa";
    assert beers[0].name != beers[1].name;
    InsertAllFresh(beers);
    var t1 := InsertAll(EmptyTable, beers);
    assert t1.rows == [Beer(1, "weissbier", 0), Beer(2, "Punk Ipa", 0)];
    var t2 := SetFavorite(t1, 2, ToLong(FavoriteTarget(Beer(2, "Punk Ipa", 0))));
    assert t2.rows[0] == Beer(1, "weissbier", 0);
    assert t2.rows[1] == Beer(2, "Punk Ipa", 1);
    assert HasName(t2.rows, beers[0].name) && HasName(t2.rows, beers[1].name);
    InsertAllKnownNames(t2, beers);
  }

  /**
   * The use case. It holds the store and the settings value stored under
   * `DbTimestampKey` (`None` while the key was never written).
   */
  class BeerUseCase {
    const db: DatabaseHelper
    var timestamp: Option<int>

    constructor (db: DatabaseHelper, timestamp: Option<int>)
      ensures this.db == db && this.timestamp == timestamp
    {
      this.db := db;
      this.timestamp := timestamp;
    }

    /** `settings.getLong(DB_TIMESTAMP_KEY, 0)` */
    function LastDownload(): int
      reads this
    {
      timestamp.GetOr(0)
    }

    /** `getBeersFromNetwork(now)`: stores `now` on every call that returns, even with an empty list. */
    method GetBeersFromNetwork(now: int, outcome: FetchOutcome) returns (state: DataState<ItemDataSummary>)
      modifies this
      ensures state == NetworkState(outcome)
      ensures timestamp == if outcome.Returned? then Some(now) else old(timestamp)
    {
      match outcome {
        case Threw =>
          state := WithException(Some(DownloadError));
        case Returned(rs) =>
          timestamp := Some(now);
          if |rs| == 0 {
            state := Empty();
          } else {
            state := WithData(ItemDataSummary(None, ToBeers(rs)));
          }
      }
    }

    /**
     * `refreshBeerIfStale(forced)` run to completion: `emissions` is what the
     * flow emits and `fetched` whether the remote call was made.
     */
    method RefreshBeerIfStale(forced: bool, now: int, outcome: FetchOutcome)
      returns (emissions: seq<DataState<ItemDataSummary>>, fetched: bool)
      requires WellFormed(db.table)
      modifies this, db
      ensures fetched == (IsStale(old(LastDownload()), now) || forced)
      ensures emissions == RefreshEmissions(fetched, outcome)
      ensures timestamp == if fetched && outcome.Returned? then Some(now) else old(timestamp)
      ensures db.table == if fetched && NetworkState(outcome).data.Some?
                          then InsertAll(old(db.table), ToBeers(outcome.results))
                          else old(db.table)
      ensures WellFormed(db.table)
    {
      emissions := [Loading()];
      var stale := IsStale(LastDownload(), now);
      fetched := stale || forced;
      if fetched {
        var state := GetBeersFromNetwork(now, outcome);
        if state.data.Some? {
          db.InsertBeers(state.data.value.allItems);
        } else {
          emissions := emissions + [state];
        }
      }
    }

    /** `updateBeerFavorite(beer)`: writes `beer.favorite != 1` into the row with `beer.id`. */
    method UpdateBeerFavorite(beer: Beer)
      requires WellFormed(db.table)
      modifies db
      ensures db.table == SetFavorite(old(db.table), beer.id, ToLong(FavoriteTarget(beer)))
      ensures WellFormed(db.table)
    {
      db.UpdateFavorite(beer.id, FavoriteTarget(beer));
    }
  }

  /**
   * Two non-forced refreshes within one hour of a download that returned:
   * the second makes no remote call and emits only the loading marker.
   */
  method RefreshTwiceWithinHour(useCase: BeerUseCase, now: int, later: int,
                                first: FetchOutcome, second: FetchOutcome)
    returns (fetchedAgain: bool, emittedAgain: seq<DataState<ItemDataSummary>>)
    requires WellFormed(useCase.db.table)
    requires useCase.LastDownload() + OneHourMs < now
    requires first.Returned? && now <= later <= now + OneHourMs
    modifies useCase, useCase.db
    ensures !fetchedAgain && emittedAgain == [Loading()]
    ensures useCase.timestamp == Some(now)
  {
    var emitted, fetched := useCase.RefreshBeerIfStale(false, now, first);
    assert fetched;
    StaleMonotone(now, now, later);
    emittedAgain, fetchedAgain := useCase.RefreshBeerIfStale(false, later, second);
  }
}
