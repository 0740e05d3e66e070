/** Shared vocabulary of the series store: the outcome wrappers, the
    exceptions the store raises, and the Python values it can be indexed with. */
module SeriesTypes {

  datatype Option<+T> = None | Some(value: T)

  /** A call either returns a value or raises one of the store's exceptions. */
  datatype Result<+T> = Ok(value: T) | Err(error: SeriesError)

  /** The exception classes of the store, each carrying the arguments it is raised with.
      IndexError stands for the Python/numpy IndexError the store lets escape uncaught. */
  datatype SeriesError =
    | NonExistentHead(head: string, query: string)
    | UnAssignedHead(head: string)
    | InvalidSeriesIndex(indexedHead: Option<string>)
    | PrematureSeriesUpdate(unassigned: set<string>)
    | SeriesIndexError(head: string)
    | SeriesCannotMutateHistory
    | IndexError

  /** The Python objects a caller can put between the brackets of `series[...]`
      or `view[...]`: a string, an int, a slice, a list of such, or anything else. */
  datatype PyKey =
    | PyStr(s: string)
    | PyInt(i: int)
    | PySlice(start: Option<int>, stop: Option<int>, step: Option<int>)
    | PyList(items: seq<PyKey>)
    | PyOther

  /** Both `__getitem__` methods first wrap a non-list key into a one-element list. */
  function AsList(key: PyKey): seq<PyKey>
  {
    if key.PyList? then key.items else [key]
  }

  /** The channel name a read key designates: a string, alone or as the only
      element of a list. */
  function KeyName(key: PyKey): (name: Option<string>)
    ensures name.Some? <==> |AsList(key)| == 1 && AsList(key)[0].PyStr?
    ensures name.Some? ==> AsList(key) == [PyStr(name.value)]
  {
    var items := AsList(key);
    if |items| == 1 && items[0].PyStr? then Some(items[0].s) else None
  }

  const GetQuery: string := "get"
  const SetQuery: string := "set"
}
