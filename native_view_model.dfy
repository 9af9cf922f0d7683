/**
 * The iOS item screen's state holder: the same slot and overlay reducer as
 * the Android one, plus `consumeError`. Launched coroutines run to
 * completion; `schedule` and `snapshots` play the same part as there.
 */
module NativeBeer {
  import opened Wrappers
  import opened DataStates
  import opened Remote
  import opened Database
  import opened Beers
  import opened LoadingOverlay

  /** `copy(exception = null)`: the error is cleared and nothing else changes. */
  function WithoutError<T>(s: DataState<T>): (r: DataState<T>)
    ensures r.exception.None?
    ensures r.data == s.data && r.empty == s.empty && r.loading == s.loading
    ensures s.exception.None? ==> r == s
  {
    s.(exception := None)
  }

  /** Clearing the error twice is clearing it once. */
  lemma WithoutErrorIdempotent<T>(s: DataState<T>)
    ensures WithoutError(WithoutError(s)) == WithoutError(s)
  {
  }

  /** After a failed download has been shown and dismissed, the slot holds no data and no error. */
  lemma {:induction false} DismissFailedRefresh(s: DataState<ItemDataSummary>)
    ensures var r := WithoutError(Replay(s, RefreshEmissions(true, Threw)));
      r == DataState(None, None, false, false)
  {
    var es := RefreshEmissions(true, Threw);
    assert es[..|es| - 1] == [es[0]];
    assert es[..1] == [es[0]];
  }

  class NativeViewModel {
    const useCase: BeerUseCase
    var beerState: DataState<ItemDataSummary>

    /**
     * The slot starts as the loading marker, then `init` runs `observeBeers`; the
     * arguments after `useCase` are those of that first observation.
     */
    constructor (useCase: BeerUseCase, now: int, outcome: FetchOutcome,
                 snapshots: seq<seq<Beer>>, schedule: seq<bool>)
      requires WellFormed(useCase.db.table)
      modifies useCase, useCase.db
      ensures this.useCase == useCase
      ensures beerState == Replay(Loading(),
        Merge(RefreshEmissions(true, outcome), GetBeerFromCache(snapshots), schedule))
      ensures useCase.timestamp == if outcome.Returned? then Some(now) else old(useCase.timestamp)
      ensures useCase.db.table == if NetworkState(outcome).data.Some?
                                  then InsertAll(old(useCase.db.table), ToBeers(outcome.results))
                                  else old(useCase.db.table)
      ensures WellFormed(useCase.db.table)
    {
      this.useCase := useCase;
      beerState := Loading();
      new;
      ObserveBeers(now, outcome, snapshots, schedule);
    }

    /** `consumeError` */
    method ConsumeError()
      modifies this
      ensures beerState == WithoutError(old(beerState))
    {
      beerState := beerState.(exception := None);
    }

    /** The `collect` body of `observeBeers` and `refreshBeers`, over a whole flow. */
    method Collect(es: seq<DataState<ItemDataSummary>>)
      modifies this
      ensures beerState == Replay(old(beerState), es)
    {
      var i := 0;
      while i < |es|
        invariant 0 <= i <= |es|
        invariant beerState == Replay(old(beerState), es[..i])
      {
        assert es[..i + 1][..i] == es[..i];
        if es[i].loading {
          beerState := beerState.(loading := true);
        } else {
          beerState := es[i];
        }
        i := i + 1;
      }
      assert es[..|es|] == es;
    }

    /** `observeBeers`, launched from `init`: a forced refresh merged with the cache flow. */
    method ObserveBeers(now: int, outcome: FetchOutcome, snapshots: seq<seq<Beer>>, schedule: seq<bool>)
      requires WellFormed(useCase.db.table)
      modifies this, useCase, useCase.db
      ensures beerState == Replay(old(beerState),
        Merge(RefreshEmissions(true, outcome), GetBeerFromCache(snapshots), schedule))
      ensures useCase.timestamp == if outcome.Returned? then Some(now) else old(useCase.timestamp)
      ensures useCase.db.table == if NetworkState(outcome).data.Some?
                                  then InsertAll(old(useCase.db.table), ToBeers(outcome.results))
                                  else old(useCase.db.table)
      ensures WellFormed(useCase.db.table)
    {
      var refreshed, fetched := useCase.RefreshBeerIfStale(true, now, outcome);
      var cached := GetBeerFromCache(snapshots);
      Collect(Merge(refreshed, cached, schedule));
    }

    /** `refreshBeers(forced)` */
    method RefreshBeers(forced: bool, now: int, outcome: FetchOutcome)
      requires WellFormed(useCase.db.table)
      modifies this, useCase, useCase.db
      ensures beerState == Replay(old(beerState),
        RefreshEmissions(IsStale(old(useCase.LastDownload()), now) || forced, outcome))
      ensures var fetched := IsStale(old(useCase.LastDownload()), now) || forced;
        && useCase.timestamp == (if fetched && outcome.Returned? then Some(now) else old(useCase.timestamp))
        && useCase.db.table == if fetched && NetworkState(outcome).data.Some?
                               then InsertAll(old(useCase.db.table), ToBeers(outcome.results))
                               else old(useCase.db.table)
      ensures WellFormed(useCase.db.table)
    {
      var refreshed, fetched := useCase.RefreshBeerIfStale(forced, now, outcome);
      Collect(refreshed);
    }

    /** `updateBeerFavorite(beer)`: delegated to the use case. */
    method UpdateBeerFavorite(beer: Beer)
      requires WellFormed(useCase.db.table)
      modifies useCase.db
      ensures useCase.db.table == SetFavorite(old(useCase.db.table), beer.id, ToLong(FavoriteTarget(beer)))
      ensures WellFormed(useCase.db.table)
    {
      useCase.UpdateBeerFavorite(beer);
    }
  }
}
