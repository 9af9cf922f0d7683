/**
 * The envelope every use case emits: a value, an error message, an "empty"
 * marker and a "loading" marker. Each constructor argument left out in the
 * Kotlin code takes its default (none / false).
 */
module DataStates {
  import opened Wrappers

  datatype DataState<+T> = DataState(
    data: Option<T>,
    exception: Option<string>,
    empty: bool,
    loading: bool)

  /** `DataState(loading = true)` */
  function Loading<T>(): DataState<T> {
    DataState(None, None, false, true)
  }

  /** `DataState(data = d)` */
  function WithData<T>(d: T): DataState<T> {
    DataState(Some(d), None, false, false)
  }

  /** `DataState(exception = m)`; `m` is nullable in Kotlin. */
  function WithException<T>(m: Option<string>): DataState<T> {
    DataState(None, m, false, false)
  }

  /** `DataState(empty = true)` */
  function Empty<T>(): DataState<T> {
    DataState(None, None, true, false)
  }
}
