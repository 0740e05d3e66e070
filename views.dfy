/** The read-only accessor a series store hands out on a read: the channel's
    staged scalar, a snapshot of its row of the window, and its name. */
module Views {
  import opened SeriesTypes
  import opened RollingWindow

  /** What indexing a view returns: one stored value, or the empty list that
      an empty list of indices yields. */
  datatype Lookup = Scalar(value: int) | NoItems

  /** Python's subscript `s[i]` on a sequence of length `len`: negative `i`
      counts from the end; None where Python raises IndexError. */
  function PySubscript(i: int, len: nat): (p: Option<nat>)
    ensures p.Some? <==> -(len as int) <= i < len
    ensures p.Some? ==> p.value < len
  {
    if -(len as int) <= i < 0 then Some(len + i)
    else if 0 <= i < len then Some(i)
    else None
  }

  datatype HeadView = HeadView(value: int, values: seq<int>, name: string) {

    /** `view[items]`. Only the first index of a list is looked at: an int
        `k` reads the row at Python position `-k`, a slice always fails
        (`__getitem__` reads `index.end`, which slices do not have, and its
        bare `except` turns that into SeriesIndexError), anything else is
        an invalid index. An empty list returns the empty list. */
    function Index(items: PyKey): (r: Result<Lookup>)
      ensures AsList(items) == [] ==> r == Ok(NoItems)
      ensures AsList(items) != [] && AsList(items)[0].PyInt? ==>
                var k := AsList(items)[0].i;
                && (r.Ok? <==> -|values| < k <= |values|)
                && (k == 0 && values != [] ==> r == Ok(Scalar(values[0])))
                && (0 < k <= |values| ==> r == Ok(Scalar(values[|values| - k])))
                && (-|values| < k < 0 ==> r == Ok(Scalar(values[-k])))
                && (r.Err? ==> r.error == IndexError)
      ensures AsList(items) != [] && AsList(items)[0].PySlice? ==>
                r == Err(SeriesIndexError(name))
      ensures AsList(items) != [] && !AsList(items)[0].PyInt? && !AsList(items)[0].PySlice? ==>
                r == Err(InvalidSeriesIndex(Some(name)))
    {
      var list := AsList(items);
      if list == [] then Ok(NoItems)
      else
        match list[0]
        case PyInt(k) =>
          (match PySubscript(-k, |values|)
           case Some(p) => Ok(Scalar(values[p]))
           case None => Err(IndexError))
        case PySlice(_, _, _) => Err(SeriesIndexError(name))
        case _ => Err(InvalidSeriesIndex(Some(name)))
    }

    /** `view[key] = v`: history is immutable, every assignment raises. */
    function Assign(key: PyKey, v: int): (r: Result<()>)
      ensures r == Err(SeriesCannotMutateHistory)
    {
      Err(SeriesCannotMutateHistory)
    }
  }

  /** On a full window (at least `w` commits), index `j` in 1..w reads the
      commit made `j - 1` ticks before the newest one, and index 0 reads the
      oldest value still retained; `w + 1` is out of range. */
  lemma FullWindowIndexing(w: nat, ch: seq<int>, v: int, name: string, j: int)
    requires 1 <= w <= |ch| && 1 <= j <= w
    ensures var view := HeadView(v, WindowRow(w, ch), name);
            && view.Index(PyInt(j)) == Ok(Scalar(ch[|ch| - j]))
            && view.Index(PyInt(0)) == Ok(Scalar(ch[|ch| - w]))
            && view.Index(PyInt(w + 1)) == Err(IndexError)
  {
  }

  /** Before the window is full, index 0 reads the initial zero of slot 0,
      the commits sit at indices `w - |ch|` (the newest) up to `w - 1` (the
      oldest), index `k` holding `ch[w - 1 - k]`, and the indices between 1 and `w - |ch|` read slots no commit
      has reached yet, which still hold zero. */
  lemma FillingWindowIndexing(w: nat, ch: seq<int>, v: int, name: string)
    requires |ch| < w
    ensures var view := HeadView(v, WindowRow(w, ch), name);
            && view.Index(PyInt(0)) == Ok(Scalar(0))
            && (forall j :: 1 <= j < w - |ch| ==> view.Index(PyInt(j)) == Ok(Scalar(0)))
            && (forall k :: w - |ch| <= k < w ==> view.Index(PyInt(k)) == Ok(Scalar(ch[w - 1 - k])))
  {
  }
}
