# KaMPKit shared state-management core, modelled in Dafny

This project models the shared logic of a Kotlin Multiplatform starter app
that lists items ("beers") from a remote API, caches them in a local table,
lets the user mark favourites and offers a username/password login. The
model covers:

- the item table behind `DatabaseHelper` (insert by name, update a favourite
  flag by id, delete all, select all, select by id) and the flag encoding
  `Boolean.toLong` / `Beer.isFavorited`;
- `BeerUseCase`: the one-hour staleness rule over the stored timestamp, the
  conditional fetch that persists the timestamp and writes the table, the
  projection of table snapshots into `ItemDataSummary` states, and the
  favourite toggle;
- `AuthUseCase.authenticateUserWith` and the `ViewState` machine of
  `AppViewModel`;
- the single `DataState` slot of `BeerViewModel` (Android) and
  `NativeViewModel` (iOS) with its loading-overlay reducer and `consumeError`.

Files: `wrappers.dfy` (nullable values), `data_state.dfy` (`DataState`),
`remote.dfy` (response and request values), `database_helper.dfy`,
`beer_use_case.dfy`, `auth_use_case.dfy`, `app_view_model.dfy`,
`loading_overlay.dfy` (the reducer both beer view models run, and the merge
of two flows), `beer_view_model.dfy`, `native_view_model.dfy`.

Modelling choices:

- `DataState` is modelled from its uses as `DataState(data, exception, empty,
  loading)` with defaults none/false.
- The clock reading (`now`), the answer of the item request (`FetchOutcome`:
  a list, or an exception) and the auth call (`postAuth`, a function from
  the credential request to an `AuthOutcome`: a `NetResponse` answer, or an
  exception thrown while the body of an arrived response is read) are
  parameters. The settings
  entry under `DbTimestampKey` is the field `BeerUseCase.timestamp`
  (`None` = never written, read with default 0).
- The SQL schema and queries are not modelled; the table keeps rows in
  insertion (= id) order, an insert passes only the name, a new row gets the
  next id and favourite 0, and a name already present is ignored (the test
  `fetchBeersFromNetworkPreserveFavorites` relies on this: a re-download keeps
  the like and the list at two items). These are assumptions about the
  queries, chosen to agree with the helper's tests. A fresh database gives
  ids from 1; which id follows a `deleteAll` is left open.
- A launched coroutine is modelled as running to completion inside the
  method that launches it; the view models' `init` observation therefore runs
  inside their constructors, which take that observation's inputs. The
  emissions a flow delivers are a sequence; the cache flow's snapshots of the
  table are a parameter; `flattenMerge` is `Merge(a, b, pick)`, one
  interleaving chosen by the schedule `pick`.
- The `collect` loops become `Collect` methods with a loop whose invariant
  ties the slot to `Replay` of the emissions seen so far.
- Three details follow the code where one might expect otherwise: the error
  text is "Unable to download breed list"; the list is stale only when
  `lastDownload + 3_600_000 < now` (not yet at equality); the toggle writes
  `favorite != 1`. On the flags the store itself ever writes (0 and 1) that
  comparison is the negation of `isFavorited` (`Beers.FavoriteTargetCases`,
  `Beers.ToggleListedRow`), so a row read from the store toggles correctly.

## Model

| member | source | states |
|---|---|---|
| Database.IsFavorited | shared/src/commonMain/kotlin/co/touchlab/kampkit/DatabaseHelper.kt:59 | a row counts as favourited exactly when its flag is non-zero (definition; read back in `UpdateThenSelect` and `ToggleListedRow`) |
| Database.ToLong | shared/src/commonMain/kotlin/co/touchlab/kampkit/DatabaseHelper.kt:60 | the stored flag is 0 or 1, and it is non-zero exactly for `true`, so `isFavorited` reads it back as the boolean written |
| Database.InsertName | shared/src/commonMain/kotlin/co/touchlab/kampkit/DatabaseHelper.kt:31-33 | one insert keeps the table invariant and every existing row; an absent name gets a new last row with the next id and flag 0; a present name leaves the table unchanged |
| Database.InsertAll | shared/src/commonMain/kotlin/co/touchlab/kampkit/DatabaseHelper.kt:28-35 | the batch insert as a fold: the batch's names inserted one after the other, in order (definition; its properties are the lemmas below) |
| Database.InsertAllKeepsRows | shared/src/commonMain/kotlin/co/touchlab/kampkit/DatabaseHelper.kt:28-35 | inserting a batch keeps the invariant (increasing ids, unique names, flags 0/1) and every existing row with its favourite flag, makes every inserted name present, and adds only rows named from the batch with flag 0 |
| Database.InsertAllUsesOnlyNames | shared/src/commonMain/kotlin/co/touchlab/kampkit/DatabaseHelper.kt:31-33 | the incoming ids and favourite flags are ignored: batches with the same names in the same order insert the same rows |
| Database.InsertAllKnownNames | shared/src/commonTest/kotlin/co/touchlab/kampkit/BeerUseCaseTest.kt:111-122 | re-inserting names that are all present leaves the table exactly as it was, likes included, with no duplicates |
| Database.InsertAllFresh | shared/src/commonTest/kotlin/co/touchlab/kampkit/BeerUseCaseTest.kt:42-46 | in a fresh table, distinct names get ids 1, 2, ... in insertion order, unfavourited, and select-all returns them in that order |
| Database.SetFavorite | shared/src/commonMain/kotlin/co/touchlab/kampkit/DatabaseHelper.kt:51-56 | updating the favourite of an id changes only the favourite of rows with that id, keeps ids, names, order and the next id, and keeps the invariant for flags 0/1 |
| Database.RowsWithId | shared/src/commonMain/kotlin/co/touchlab/kampkit/DatabaseHelper.kt:37-42 | select-by-id returns only rows of the table with that id, and returns nothing exactly when no row has it |
| Database.SelectByListedId | shared/src/commonTest/kotlin/co/touchlab/kampkit/SqlDelightTest.kt:48-56 | selecting by the id of a row from select-all yields exactly that row |
| Database.AtMostOneWithId | shared/src/commonMain/kotlin/co/touchlab/kampkit/DatabaseHelper.kt:37-42 | with increasing ids, selecting an id returns at most one row |
| Database.UpdateThenSelect | shared/src/commonTest/kotlin/co/touchlab/kampkit/SqlDelightTest.kt:58-72 | after updating a listed row's favourite to `b`, selecting that id yields the row with flag `toLong(b)`, which `isFavorited` reads as `b` |
| Database.DatabaseHelper.constructor | shared/src/commonMain/kotlin/co/touchlab/kampkit/DatabaseHelper.kt:14-19 | the helper opens a database holding a well-formed table |
| Database.DatabaseHelper.SelectAllItems | shared/src/commonMain/kotlin/co/touchlab/kampkit/DatabaseHelper.kt:21-26 | one snapshot of select-all: the table's rows in id order (definition) |
| Database.DatabaseHelper.SelectById | shared/src/commonMain/kotlin/co/touchlab/kampkit/DatabaseHelper.kt:37-42 | one snapshot of select-by-id: only listed rows with that id, none exactly when no row has it, and at most one in a well-formed table |
| Database.DatabaseHelper.InsertBeers | shared/src/commonMain/kotlin/co/touchlab/kampkit/DatabaseHelper.kt:28-35 | the loop over the batch leaves the table as the batch's names inserted in order, and keeps the invariant |
| Database.DatabaseHelper.DeleteAll | shared/src/commonMain/kotlin/co/touchlab/kampkit/DatabaseHelper.kt:44-49 | afterwards the table is empty and still well-formed, and select-all returns nothing |
| Database.DatabaseHelper.UpdateFavorite | shared/src/commonMain/kotlin/co/touchlab/kampkit/DatabaseHelper.kt:51-56 | the table becomes the old one with that id's flag set to `toLong(favorite)`, and keeps the invariant |
| Beers.IsStale | shared/src/commonMain/kotlin/co/touchlab/kampkit/models/BeerUseCase.kt:64-65 | stale exactly when the stored time plus one hour is strictly less than now (definition; its properties are the two lemmas below) |
| Beers.StaleBoundary | shared/src/commonMain/kotlin/co/touchlab/kampkit/models/BeerUseCase.kt:62-65 | stale iff more than 3_600_000 ms have passed since the stored time: not stale at exactly one hour, stale one millisecond later |
| Beers.StaleMonotone | shared/src/commonMain/kotlin/co/touchlab/kampkit/models/BeerUseCase.kt:62-65 | a stale list stays stale as the clock advances, and storing `now` makes it fresh for the next hour |
| Beers.ToBeers | shared/src/commonMain/kotlin/co/touchlab/kampkit/models/BeerUseCase.kt:84 | each result becomes, in order, a row with id 0, flag 0 and the result's name or "" when it is null |
| Beers.NetworkState | shared/src/commonMain/kotlin/co/touchlab/kampkit/models/BeerUseCase.kt:72-92 | a thrown exception gives exactly the error "Unable to download breed list"; an empty list gives `empty`; a non-empty list gives data with no longest item and the mapped rows; never loading, never data and error together |
| Beers.RefreshEmissions | shared/src/commonMain/kotlin/co/touchlab/kampkit/models/BeerUseCase.kt:32-45 | the first emission is always the loading marker; a second emission (the network state) comes exactly when a fetch was made and brought no data |
| Beers.LongestIndex | shared/src/commonMain/kotlin/co/touchlab/kampkit/models/BeerUseCase.kt:55 | `maxByOrNull` on name length picks an item whose name is at least as long as every other, and the first such item |
| Beers.CacheState | shared/src/commonMain/kotlin/co/touchlab/kampkit/models/BeerUseCase.kt:49-59 | an empty snapshot emits nothing; a non-empty one emits a data state (no error, not empty, not loading) whose `allItems` is the snapshot and whose `longestItem` is the first longest-named item |
| Beers.NonEmptySnapshots | shared/src/commonMain/kotlin/co/touchlab/kampkit/models/BeerUseCase.kt:49-51 | the snapshots that `mapNotNull` keeps: no result is empty, and a snapshot is in the result exactly when it is a non-empty observed one (order and repeats are fixed by the two lemmas below) |
| Beers.NonEmptySnapshotsSingle | shared/src/commonMain/kotlin/co/touchlab/kampkit/models/BeerUseCase.kt:49-52 | a single snapshot is kept exactly when it is non-empty (the `null` branch of `mapNotNull` drops the empty one) |
| Beers.NonEmptySnapshotsAppend | shared/src/commonMain/kotlin/co/touchlab/kampkit/models/BeerUseCase.kt:47-60 | filtering a concatenation of snapshot runs is concatenating the filtered runs, so the kept snapshots stay in flow order, repeats included |
| Beers.GetBeerFromCache | shared/src/commonMain/kotlin/co/touchlab/kampkit/models/BeerUseCase.kt:47-60 | the cache flow emits one state per non-empty snapshot, in order, each the data state holding that snapshot and its first longest-named item; empty snapshots emit nothing, so nothing at all is emitted exactly when every snapshot is empty |
| Beers.FavoriteTarget | shared/src/commonMain/kotlin/co/touchlab/kampkit/models/BeerUseCase.kt:95 | the flag the toggle writes is `favorite != 1` (definition; its cases are the lemma below) |
| Beers.FavoriteTargetCases | shared/src/commonMain/kotlin/co/touchlab/kampkit/models/BeerUseCase.kt:94-96 | the toggle writes `true` for 0, `false` for 1 and `true` for any other value; on 0 and 1 it is the negation of `isFavorited` |
| Beers.ToggleListedRow | shared/src/commonMain/kotlin/co/touchlab/kampkit/models/BeerUseCase.kt:94-96 | toggling a row read from the store inverts that row's favourite state as read back by id, leaves every other row unchanged and keeps the invariant |
| Beers.FavoriteSurvivesRedownload | shared/src/commonTest/kotlin/co/touchlab/kampkit/BeerUseCaseTest.kt:76-122 | the test scenario: "weissbier" and "Punk Ipa" stored as ids 1 and 2, "weissbier" the longest, liking "Punk Ipa" sets its flag to 1, and re-downloading the same list keeps the like and adds nothing |
| Beers.RefreshTwiceWithinHour | shared/src/commonMain/kotlin/co/touchlab/kampkit/models/BeerUseCase.kt:34-38 | after a stale refresh whose download returned, a non-forced refresh within the hour makes no remote call and emits only the loading marker |
| Beers.BeerUseCase.constructor | shared/src/commonMain/kotlin/co/touchlab/kampkit/models/BeerUseCase.kt:17-22 | the use case starts with the given store and settings value |
| Beers.BeerUseCase.LastDownload | shared/src/commonMain/kotlin/co/touchlab/kampkit/models/BeerUseCase.kt:63 | the stored download time, 0 while it was never written (definition) |
| Beers.BeerUseCase.GetBeersFromNetwork | shared/src/commonMain/kotlin/co/touchlab/kampkit/models/BeerUseCase.kt:72-92 | returns the network state of the outcome; stores `now` whenever the call returned (also an empty list), and leaves the timestamp unchanged when it threw |
| Beers.BeerUseCase.RefreshBeerIfStale | shared/src/commonMain/kotlin/co/touchlab/kampkit/models/BeerUseCase.kt:32-45 | fetches exactly when stale or forced; emits the refresh emissions; stores `now` only after a returned fetch; inserts the mapped rows only when the fetch brought data, and otherwise leaves the table unchanged |
| Beers.BeerUseCase.UpdateBeerFavorite | shared/src/commonMain/kotlin/co/touchlab/kampkit/models/BeerUseCase.kt:94-96 | writes `beer.favorite != 1` into the row with `beer.id` and changes nothing else |
| Auth.AuthenticateUserWith | shared/src/commonMain/kotlin/co/touchlab/kampkit/models/AuthUseCase.kt:26-44 | the loading marker comes first; when the call answers, exactly one result follows: an error answer gives its message as the error with no data, a success gives the packet whose username and email both wrap `dto.username` and whose token wraps the header verbatim; when the call throws, the loading marker is the only emission |
| Auth.IgnoresEmailAndId | shared/src/commonMain/kotlin/co/touchlab/kampkit/models/AuthUseCase.kt:37 | the response's `email` and `id` do not affect what is emitted |
| AuthView.ReduceAuth | app/src/main/java/co/touchlab/kampkit/android/AppViewModel.kt:30-40 | the emission reducer, in order: loading gives `Loading`, missing data gives `Error(exception)`, otherwise `AuthSuccess(userInfo)`; the current state plays no part; never `Unininitialized` |
| AuthView.ReplayAuth | app/src/main/java/co/touchlab/kampkit/android/AppViewModel.kt:29-41 | the slot after collecting a sequence of emissions: a left fold of the reducer from the starting state (definition) |
| AuthView.ReplayForgetsStart | app/src/main/java/co/touchlab/kampkit/android/AppViewModel.kt:29-41 | after at least one emission the state is determined by the last emission alone, whatever it was before |
| AuthView.LoginOutcome | app/src/main/java/co/touchlab/kampkit/android/AppViewModel.kt:29-41 | feeding the auth emissions shows `Loading` after the first and ends in `AuthSuccess` with the response's packet on success, in `Error(m)` on an error answer, and stays `Loading` when the call throws |
| AuthView.AppViewModel.constructor | app/src/main/java/co/touchlab/kampkit/android/AppViewModel.kt:21 | the initial state is `Unininitialized` |
| AuthView.AppViewModel.CollectAuth | app/src/main/java/co/touchlab/kampkit/android/AppViewModel.kt:29-41 | the collect loop leaves the state that replaying the emissions through the reducer gives |
| AuthView.AppViewModel.StartLogin | app/src/main/java/co/touchlab/kampkit/android/AppViewModel.kt:26 | before anything is launched, the slot shows `Loading`, whatever it held |
| AuthView.AppViewModel.Login | app/src/main/java/co/touchlab/kampkit/android/AppViewModel.kt:25-43 | login first shows `Loading` (through `StartLogin`) and then leaves the state that collecting the use case's emissions from `Loading` gives |
| AuthView.AppViewModel.GoToInitialState | app/src/main/java/co/touchlab/kampkit/android/AppViewModel.kt:45-47 | from every state the result is `Unininitialized` (so applying it twice is applying it once) |
| LoadingOverlay.Step | app/src/main/java/co/touchlab/kampkit/android/BeerViewModel.kt:43-48 | a loading emission sets `loading` on the current state and keeps its data, error and empty marker; any other emission replaces the state wholesale |
| LoadingOverlay.Replay | app/src/main/java/co/touchlab/kampkit/android/BeerViewModel.kt:42-49 | the slot after collecting a sequence of emissions: a left fold of the overlay step from the starting state (definition; characterised by `ReplayResult`) |
| LoadingOverlay.LoadingIdempotent | app/src/main/java/co/touchlab/kampkit/android/BeerViewModel.kt:43-45 | applying the loading overlay twice gives the same state as applying it once |
| LoadingOverlay.ReplayResult | app/src/main/java/co/touchlab/kampkit/android/BeerViewModel.kt:42-49 | after any run of emissions the slot is the last non-loading emission (flagged loading if markers followed it), or the starting state flagged loading if only markers came |
| LoadingOverlay.LoadingKeepsData | app/src/main/java/co/touchlab/kampkit/android/BeerViewModel.kt:43-45 | loading markers never erase the last-known data, error or empty marker |
| LoadingOverlay.Merge | app/src/main/java/co/touchlab/kampkit/android/BeerViewModel.kt:39-42 | the merged flow delivers every emission of both flows, none dropped and none added |
| LoadingOverlay.MergeKeepsOrder | app/src/main/java/co/touchlab/kampkit/android/BeerViewModel.kt:39-42 | the merged flow keeps each flow's own order: the emissions delivered by the refresh flow are exactly that flow's emissions in order, and likewise for the cache flow |
| AndroidBeer.RefreshOverlay | app/src/main/java/co/touchlab/kampkit/android/BeerViewModel.kt:53-65 | a refresh without fetch, or whose fetch brought data, only flags the slot as loading; an empty or failed download replaces the slot, dropping earlier data |
| AndroidBeer.BeerViewModel.constructor | app/src/main/java/co/touchlab/kampkit/android/BeerViewModel.kt:25-33 | the slot starts as `DataState(loading = true)` and `init` runs the first observation: the slot is then that marker replayed through the merged refresh and cache emissions, with the forced refresh's effects on timestamp and table |
| AndroidBeer.BeerViewModel.Collect | app/src/main/java/co/touchlab/kampkit/android/BeerViewModel.kt:42-49 | the collect loop leaves the slot that replaying the emissions through the overlay reducer gives |
| AndroidBeer.BeerViewModel.ObserveBeer | app/src/main/java/co/touchlab/kampkit/android/BeerViewModel.kt:36-51 | the initial observation forces a refresh (the staleness check is bypassed) and runs the merge of refresh and cache emissions through the reducer |
| AndroidBeer.BeerViewModel.RefreshBeer | app/src/main/java/co/touchlab/kampkit/android/BeerViewModel.kt:53-65 | the refresh flow alone through the same reducer, with the use case's effects on timestamp and table |
| AndroidBeer.BeerViewModel.UpdateBeerFavorite | app/src/main/java/co/touchlab/kampkit/android/BeerViewModel.kt:67-71 | the same store update as the use case's toggle |
| NativeBeer.WithoutError | shared/src/iosMain/kotlin/co/touchlab/kampkit/NativeViewModel.kt:34-36 | `consumeError` clears the error and changes no other field; a state without error is unchanged |
| NativeBeer.WithoutErrorIdempotent | shared/src/iosMain/kotlin/co/touchlab/kampkit/NativeViewModel.kt:34-36 | clearing the error twice is clearing it once |
| NativeBeer.DismissFailedRefresh | shared/src/iosMain/kotlin/co/touchlab/kampkit/NativeViewModel.kt:34-36 | a failed forced download shown in the slot and then dismissed leaves no data, no error, not empty, not loading |
| NativeBeer.NativeViewModel.constructor | shared/src/iosMain/kotlin/co/touchlab/kampkit/NativeViewModel.kt:25-32 | the slot starts as `DataState(loading = true)` and `init` runs `observeBeers`: the slot is then that marker replayed through the merged refresh and cache emissions, with the forced refresh's effects on timestamp and table |
| NativeBeer.NativeViewModel.ConsumeError | shared/src/iosMain/kotlin/co/touchlab/kampkit/NativeViewModel.kt:34-36 | the slot becomes the old one with the error cleared |
| NativeBeer.NativeViewModel.Collect | shared/src/iosMain/kotlin/co/touchlab/kampkit/NativeViewModel.kt:45-52 | the collect loop leaves the slot that replaying the emissions through the overlay reducer gives |
| NativeBeer.NativeViewModel.ObserveBeers | shared/src/iosMain/kotlin/co/touchlab/kampkit/NativeViewModel.kt:39-53 | the init-time observation forces a refresh and runs the merge of refresh and cache emissions through the reducer |
| NativeBeer.NativeViewModel.RefreshBeers | shared/src/iosMain/kotlin/co/touchlab/kampkit/NativeViewModel.kt:63-75 | the refresh flow alone through the same reducer |
| NativeBeer.NativeViewModel.UpdateBeerFavorite | shared/src/iosMain/kotlin/co/touchlab/kampkit/NativeViewModel.kt:77-81 | the same store update as the use case's toggle |

## Left out

- The HTTP clients (`KtorApiImpl`, `DogApiImpl`) and the status-code classification: the network outcome is an input value.
- The coroutine machinery (`CommonFlow`, dispatchers, `scope.launch`, cancellation, `onDestroy`): launched work runs to completion; concurrent interleavings of separate launches are not modelled beyond calling the methods in different orders.
- The forwarding of the slot to the iOS callback (`NativeViewModel.kt` lines 55-60) and the `StateFlow` subscription semantics.
- Dependency injection, `ensureNeverFrozen`, logging.
- The SQL schema and queries: the table is modelled by the behaviour described above; the queries' observability is reduced to snapshots passed as a parameter.
- Integer widths: ids, flags, timestamps and the clock are unbounded integers; 64-bit overflow of `lastDownload + 3_600_000` is not modelled, nor is `UserAuthDto.id` being a 32-bit integer.
- Name length: string length here counts Dafny characters, where Kotlin counts UTF-16 code units.
- Database.DatabaseHelper.DeleteAll: promises an empty, well-formed table but not which id the next insert receives, since that depends on the table's key declaration, which is not modelled (the model keeps the counter).
- What becomes of an exception thrown by the auth call once it leaves the flow (the launched coroutine fails; the scope's handling of that failure is not modelled): the slot is left as the last emission made it.
- The test doubles and test harnesses themselves; their scenarios appear as lemmas.
