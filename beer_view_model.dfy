/**
 * The Android item screen's state holder: one `DataState` slot, starting
 * as the loading marker and updated by the overlay reducer on every
 * emission it collects. Each launched coroutine is modelled as running to
 * completion; the order in which the two merged flows deliver is the
 * parameter `schedule`, and the store snapshots the cache flow observes are
 * the parameter `snapshots`.
 */
module AndroidBeer {
  import opened Wrappers
  import opened DataStates
  import opened Remote
  import opened Database
  import opened Beers
  import opened LoadingOverlay

  /**
   * What `refreshBeer` leaves in the slot: a fetch that brought data (or no
   * fetch at all) only lays the loading flag over the current state; an
   * empty or failed download replaces it, so earlier data is dropped.
   */
  lemma {:induction false} RefreshOverlay(s: DataState<ItemDataSummary>, fetch: bool, outcome: FetchOutcome)
    ensures var r := Replay(s, RefreshEmissions(fetch, outcome));
      && (!fetch || NetworkState(outcome).data.Some? ==> r == s.(loading := true))
      && (fetch && outcome.Threw? ==> r == WithException(Some(DownloadError)))
      && (fetch && outcome == Returned([]) ==> r == Empty())
  {
    var es := RefreshEmissions(fetch, outcome);
    assert es[..1] == [es[0]];
    if |es| == 2 {
      assert es[..|es| - 1] == [es[0]];
    }
  }

  class BeerViewModel {
    const useCase: BeerUseCase
    var beerState: DataState<ItemDataSummary>

    /**
     * The slot starts as the loading marker, then `init` runs `observeBeer`; the
     * arguments after `useCase` are those of that first observation.
     */
    constructor (useCase: BeerUseCase, now: int, outcome: FetchOutcome,
                 snapshots: seq<seq<Beer>>, schedule: seq<bool>)
      requires WellFormed(useCase.db.table)
      modifies useCase, useCase.db
      ensures this.useCase == useCase
      ensures beerState == Replay(Loading(),
        Merge(RefreshEmissions(true, outcome), GetBeerFromCache(snapshots), schedule))
      ensures useCase.timestamp == if outcome.Returned? then Some(now) else old(useCase.timestamp)
      ensures useCase.db.table == if NetworkState(outcome).data.Some?
                                  then InsertAll(old(useCase.db.table), ToBeers(outcome.results))
                                  else old(useCase.db.table)
      ensures WellFormed(useCase.db.table)
    {
      this.useCase := useCase;
      beerState := Loading();
      new;
      ObserveBeer(now, outcome, snapshots, schedule);
    }

    /** The `collect` body shared by `observeBeer` and `refreshBeer`, over a whole flow. */
    method Collect(es: seq<DataState<ItemDataSummary>>)
      modifies this
      ensures beerState == Replay(old(beerState), es)
    {
      var i := 0;
      while i < |es|
        invariant 0 <= i <= |es|
        invariant beerState == Replay(old(beerState), es[..i])
      {
        assert es[..i + 1][..i] == es[..i];
        if es[i].loading {
          beerState := beerState.(loading := true);
        } else {
          beerState := es[i];
        }
        i := i + 1;
      }
      assert es[..|es|] == es;
    }

    /**
     * `observeBeer`, launched from `init`: a forced refresh merged with the
     * cache flow, every emission run through the reducer.
     */
    method ObserveBeer(now: int, outcome: FetchOutcome, snapshots: seq<seq<Beer>>, schedule: seq<bool>)
      requires WellFormed(useCase.db.table)
      modifies this, useCase, useCase.db
      ensures beerState == Replay(old(beerState),
        Merge(RefreshEmissions(true, outcome), GetBeerFromCache(snapshots), schedule))
      ensures useCase.timestamp == if outcome.Returned? then Some(now) else old(useCase.timestamp)
      ensures useCase.db.table == if NetworkState(outcome).data.Some?
                                  then InsertAll(old(useCase.db.table), ToBeers(outcome.results))
                                  else old(useCase.db.table)
      ensures WellFormed(useCase.db.table)
    {
      var refreshed, fetched := useCase.RefreshBeerIfStale(true, now, outcome);
      var cached := GetBeerFromCache(snapshots);
      Collect(Merge(refreshed, cached, schedule));
    }

    /** `refreshBeer(forced)`: the refresh flow alone, through the same reducer. */
    method RefreshBeer(forced: bool, now: int, outcome: FetchOutcome)
      requires WellFormed(useCase.db.table)
      modifies this, useCase, useCase.db
      ensures beerState == Replay(old(beerState),
        RefreshEmissions(IsStale(old(useCase.LastDownload()), now) || forced, outcome))
      ensures var fetched := IsStale(old(useCase.LastDownload()), now) || forced;
        && useCase.timestamp == (if fetched && outcome.Returned? then Some(now) else old(useCase.timestamp))
        && useCase.db.table == if fetched && NetworkState(outcome).data.Some?
                               then InsertAll(old(useCase.db.table), ToBeers(outcome.results))
                               else old(useCase.db.table)
      ensures WellFormed(useCase.db.table)
    {
      var refreshed, fetched := useCase.RefreshBeerIfStale(forced, now, outcome);
      Collect(refreshed);
    }

    /** `updateBeerFavorite(beer)`: delegated to the use case. */
    method UpdateBeerFavorite(beer: Beer)
      requires WellFormed(useCase.db.table)
      modifies useCase.db
      ensures useCase.db.table == SetFavorite(old(useCase.db.table), beer.id, ToLong(FavoriteTarget(beer)))
      ensures WellFormed(useCase.db.table)
    {
      useCase.UpdateBeerFavorite(beer);
    }
  }
}
