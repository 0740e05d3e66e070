# Rolling-window series store

A model of the `Series` store of `pyne_script` and the read-only accessor
(`SeriesHeadObject`) that its reads return.

A `Series` is built from a list of channel names, a window size and a
history flag. It keeps:

- a name-to-row map;
- a zero-filled buffer of one row per name and `window_size` slots per row;
- a staging vector `heads` with one value per row;
- the set of names written during the current tick;
- a cursor `head_positions`;
- optionally, an unbounded history log per name.

`series[name] = v` stages a value. `series.update()` is a barrier. It
clears the write marks, then refuses to commit if some name was not
written. Otherwise it moves the cursor one slot on, or rolls the buffer
once the cursor is on the last slot. It then writes the staged heads into
the cursor's column and appends them to the history logs. `series[name]`
checks the name and the cursor and returns an accessor. The accessor holds
the staged scalar, the channel's buffer row and the name. Indexing it reads
the row with Python's negative indexing. Assigning into it always raises.

The Dafny project has four modules:

- `SeriesTypes` (`types.dfy`): the `Result` wrapper, the exception classes
  as the `SeriesError` datatype, and the Python keys a caller can index with.
- `RollingWindow` (`window.dfy`): the buffer as plain values. It holds
  numpy's flat roll written out literally (flatten, rotate, reshape) and the
  commit step of `update`. It also holds `Window(n, w, commits)`, which says
  what the buffer contains after any sequence of commits, and the lemmas
  that connect the two.
- `Views` (`views.dfy`): the accessor as an immutable datatype with pure
  `Index` and `Assign`.
- `Store` (`series.dfy`): the class `Series`. It has the source's fields,
  with `values` as an `array2<int>` and `heads` as an `array<int>`. Its
  invariant `Valid()` ties the array to the ghost `Buffer`. It also states
  that `Buffer`, the cursor and the history logs are exactly what the ghost
  commit sequence `Commits` produces. Every method keeps `Valid()`, and `Update` leaves `values` either
  as it was or a freshly allocated array. So a caller can go on calling the
  store, and the window theorem holds after any sequence of calls.

The model follows the code as written, also where it departs from the
intended "ticks ago" design (offset 0 as the newest commit, working range
reads):

- Reads return the staged `heads` value as the scalar, not a committed slot.
  A `set` after an `update` therefore changes what the next read returns.
- Integer index `k` reads `row[-k]`. So index 0 reads slot 0, which is the
  oldest retained value or the initial zero. Index `k` in `1..window_size`
  reads slot `window_size - k`.
- Every slice raises `SeriesIndexError`. The code reads `index.end`, which
  slices do not have, and its bare `except` turns that into
  `SeriesIndexError`.
- A list index uses only its first element, and an empty list yields `[]`.
- With `window_size == 1` the cursor never leaves 0, so every read raises
  `UnAssignedHead`.
- `np.roll(values, (0, -1))` without an axis rotates the flattened buffer.
  Each row's last slot briefly receives the first value of the next row.
  `RollingWindow.RollThenWrite` proves that the column write always
  overwrites it.
- With `window_size == 0`, construction succeeds. A complete `update` then
  raises numpy's `IndexError` on the column write, after the write marks
  were already cleared.

## Model

| member | source | states |
|---|---|---|
| Store.Series.constructor | src/pyne_script/series.py:106-124 | Builds a valid store. The name map is `IndexMap(keys)`, the buffer is `len(keys)` zero rows of `window_size` slots, the heads are zero, nothing is marked written, the cursor is 0 and no commits exist. When tracking, every name has an empty log; otherwise there is no log. |
| Store.IndexMap | src/pyne_script/series.py:112-115 | Every listed name is mapped and nothing else. A name maps to a position in the list that holds it, with no later occurrence, so a later duplicate overwrites an earlier one. |
| Store.RegisterKeys | src/pyne_script/series.py:112-115 | The registration loop yields the name set and exactly `IndexMap(keys)`. |
| Store.EmptyLogs | src/pyne_script/series.py:121-124 | The initial history log has exactly the registered names, each with an empty list. |
| Store.Series.Set | src/pyne_script/series.py:178-187 | A registered string name overwrites only that name's head and adds the name to the write marks. An unregistered string raises `NonExistentHead(name, "set")`. A non-string key raises `InvalidSeriesIndex()`. On error, heads and marks are unchanged. The invariant is kept. |
| Store.Series.Update | src/pyne_script/series.py:126-149 | Write marks are empty afterwards whatever happens. Some name unwritten: raises `PrematureSeriesUpdate` with exactly the unwritten names. All written and `window_size == 0`: raises `IndexError`. On either error the buffer, cursor, history and commits are unchanged. It succeeds iff all names were written and `window_size > 0`. On success the cursor is `NextCursor` of the old cursor, the buffer is one `Commit` step of the old buffer, the heads join the commits, and each log gains its name's head. The invariant, and with it the window theorem, is kept. `values` is afterwards the old array or a freshly allocated one. |
| Store.Series.ClearMarks | src/pyne_script/series.py:127-138 | The barrier loop removes every registered name from the write marks. It reports exactly the names that were not marked, and reports "all assigned" iff every name was marked. |
| Store.Series.CommitHeads | src/pyne_script/series.py:140-149 | After the barrier, the commit fails iff `window_size == 0`, with `IndexError` and no change to the buffer, cursor, history or commits. Otherwise it performs the commit that `CommitColumn` states. `values` is afterwards the old array or a freshly allocated one. |
| Store.Series.CommitColumn | src/pyne_script/series.py:140-149 | For a window of at least one slot: the new cursor is `NextCursor(old cursor)`, the new buffer is `Commit(old buffer, old cursor, window_size, heads)`, the heads join the commits, each log gains its name's head, and the invariant is kept. `values` is afterwards the old array or a freshly allocated one. |
| Store.Series.RollAndWrite | src/pyne_script/series.py:140-145 | The array afterwards holds `Commit(old buffer, old cursor, window_size, heads)` and the cursor is `NextCursor(old cursor)`. `values` is afterwards the old array or a freshly allocated one. |
| Store.Series.ShiftOrAdvance | src/pyne_script/series.py:140-143 | On the last slot, the array is replaced by a new one holding numpy's flat roll of the old contents and the cursor stays. Otherwise the cursor moves one slot on and the array is untouched. |
| Store.Series.WriteHeads | src/pyne_script/series.py:145 | The array afterwards holds the old contents with column `head_positions` replaced by the heads. |
| Store.Roll | src/pyne_script/series.py:141 | Returns a new array of the same shape holding `NumpyRoll` of the old contents. |
| Store.Series.Record | src/pyne_script/series.py:147-149 | The heads join the commit sequence. When tracking, each name's log gains `heads[key_mappings[name]]` and stays equal to that channel's whole commit sequence. When not tracking, the log is untouched. |
| Store.Series.AppendHistory | src/pyne_script/series.py:147-149 | The history loop appends exactly `heads[key_mappings[name]]` to every name's log once, and turns logs of the commits `cs` into logs of `cs + [heads]`. |
| Store.HistoryExtends | src/pyne_script/series.py:147-149 | Appending each channel's newest value to logs that equal the channel's commits gives logs equal to the channel's commits including the new one. |
| Store.Series.HistoryCountsCommits | src/pyne_script/series.py:147-149 | In a valid tracking store, every log is as long as the number of successful updates. |
| Store.Series.CommittedIsValid | src/pyne_script/series.py:140-149 | The state one commit leaves behind satisfies the store's invariant for the longer commit sequence. |
| Store.Series.Get | src/pyne_script/series.py:151-176 | An empty list raises `IndexError`. Anything other than a single string raises `InvalidSeriesIndex()`. An unregistered name raises `NonExistentHead(name, "get")`. A registered name succeeds iff at least one update succeeded and `window_size >= 2`, and raises `UnAssignedHead(name)` otherwise. On success the view carries the name, the staged head and the row `WindowRow(window_size, channel's commits)`. |
| Store.Series.RowOf | src/pyne_script/series.py:162 | The row read out of the array is the buffer's row for that channel. |
| Views.HeadView.Index | src/pyne_script/series.py:18-51 | An empty list gives `[]`. Only the first element of a list is used. For an int `k`, the lookup succeeds iff `-len < k <= len`. Then `k = 0` reads slot 0, `0 < k` reads slot `len - k` and `k < 0` reads slot `-k`; otherwise it raises `IndexError`. Any slice raises `SeriesIndexError(name)`. Anything else raises `InvalidSeriesIndex(name)`. |
| Views.HeadView.Assign | src/pyne_script/series.py:15-16 | Every assignment into a view raises `SeriesCannotMutateHistory`. |
| Views.PySubscript | src/pyne_script/series.py:28 | Python subscripting succeeds iff `-len <= i < len`, and the position it yields lies in the sequence. |
| Views.FullWindowIndexing | src/pyne_script/series.py:28 | Once at least `w` commits were made, index `j` in `1..w` reads the commit `j - 1` ticks before the newest. Index 0 reads the oldest retained commit, and index `w + 1` raises `IndexError`. |
| Views.FillingWindowIndexing | src/pyne_script/series.py:28 | While fewer than `w` commits were made, index 0 and every index `j` with `1 <= j < w - commits` read zero. Every index `k` from `w - commits` to `w - 1` reads commit `ch[w - 1 - k]`, so `w - commits` reads the newest and `w - 1` the oldest. |
| RollingWindow.NumpyRoll | src/pyne_script/series.py:141 | The flat rotation of the buffer keeps its shape. Each row moves left by one slot, and its last slot receives the first value of the next row, or of the first row for the last row. |
| RollingWindow.ShiftFlat | src/pyne_script/series.py:141 | Rotating the flattened buffer left and cutting it back into rows equals the per-row left shift with the wrapped values entering at the end. |
| RollingWindow.RollThenWrite | src/pyne_script/series.py:141-145 | Rolling and then writing the last column equals a per-row left shift with the heads entering at the end. No wrapped value survives. |
| RollingWindow.Cursor | src/pyne_script/series.py:140-143 | The cursor after `k` commits stays below the window size, and is 0 for an empty window. It is positive iff at least one commit was made and the window has at least two slots. |
| RollingWindow.NextCursor | src/pyne_script/series.py:140-143 | The cursor stays on the last slot once it is there, otherwise it moves one slot on, and it always stays inside the window. |
| RollingWindow.ChannelSnoc | src/pyne_script/series.py:149 | A channel's commits after one more commit are its old commits followed by that commit's value. |
| RollingWindow.EmptyWindow | src/pyne_script/series.py:109 | The window of no commits is the zero-filled buffer that construction allocates. |
| RollingWindow.WindowRowStep | src/pyne_script/series.py:140-145 | One commit turns a channel's row for commits `ch` into its row for `ch + [x]`. It shifts when the cursor is on the last slot and writes slot `cursor + 1` otherwise. |
| RollingWindow.CommitRow | src/pyne_script/series.py:140-145 | One commit changes each row either by a left shift with the new value at the end, or by writing the new value at the slot after the cursor. |
| RollingWindow.CommitExtendsWindow | src/pyne_script/series.py:140-145 | Committing heads onto the buffer and cursor that the commits `cs` produce yields exactly the buffer and cursor that `cs + [heads]` produce. |
| RollingWindow.ReplayIsWindow | src/pyne_script/series.py:140-145 | Replaying any commit sequence from the zero-filled buffer and cursor 0 yields `Window` and `Cursor` of that sequence. While fewer than `window_size` commits were made, each row is `[0]`, then its commits, then zeros. From then on, it is the last `window_size` commits, oldest first. |
| RollingWindow.Rolls | src/pyne_script/series.py:140 | The roll condition `head_positions + 1 > window_size - 1`, written as in the source. |
| RollingWindow.WriteColumn | src/pyne_script/series.py:145 | Replacing column `col` by the heads keeps the number of rows and each row's length. What it stores is stated by `CommitRow` and `RollThenWrite`. |
| RollingWindow.Commit | src/pyne_script/series.py:140-145 | One successful update on the buffer: roll when `Rolls` holds, then write the heads into column `NextCursor(hp)`. The buffer keeps its shape. `CommitRow` gives each row afterwards, and `CommitExtendsWindow` ties the step to `Window`. |
| SeriesTypes.SeriesError | src/pyne_script/series.py:190-265 | One constructor per exception class the store raises, carrying the arguments it is raised with, plus the `IndexError` that escapes uncaught. |
| SeriesTypes.AsList | src/pyne_script/series.py:21-22 | A key that is not a list is wrapped in a one-element list, as both `__getitem__` methods do first (also lines 152-153). |
| SeriesTypes.KeyName | src/pyne_script/series.py:155 | A read key names a channel iff it is a list of exactly one string, or a string. The name is that string. |
| Store.RollRow | src/pyne_script/series.py:141 | Filling one row of the new array with the rolled cells of the old one leaves every other row as it was. |
| Store.DefaultStore | src/pyne_script/series.py:106 | `Series(keys)` with the default arguments has a window of 200 slots and no history. |
| Store.Fresh | src/pyne_script/series.py:106-124 | A new store over `["a", "b"]` with window 3 and history has the map `a -> 0, b -> 1`, zero heads, no marks and no commits. |
| Store.FirstTick | src/pyne_script/series.py:126-149 | Writing 7 to "a" and 8 to "b" and updating commits `[7, 8]` and clears the marks. A second update call on the result is allowed. |
| Store.SecondTick | src/pyne_script/series.py:127-138 | Writing only "a" (6) on that store and updating raises `PrematureSeriesUpdate({"b"})`. The heads become `[6, 8]` and nothing is committed. |
| Store.TwoTicks | src/pyne_script/series.py:151-176 | After both ticks, reading "a" returns the staged 6 as its scalar and the row `[0, 7, 0]`, and its history log is `[7]`. |

## Left out

- Buffer and head values are `int`. The source stores numpy `float64` and coerces every assigned value into it. The store never computes with the values, so rounding and failed conversions are not modelled.
- The numeric accessor subclasses `SeriesHeadObjectFloat` and `SeriesHeadObjectInteger` (`__new__`, `__init__`, `__str__`, `__repr__`) only make the accessor behave as a Python number. The view's scalar is a plain field. The integer branch of `__getitem__` can never run, because `heads` is a `float64` array.
- The row a read returns is a snapshot `seq`. In the source it is a live numpy view of the buffer until the next roll replaces the array. Aliasing between a view and later updates is not modelled.
- Exceptions are datatype constructors carrying their arguments. Their message text (`__str__`) is not modelled.
- `PrematureSeriesUpdate` carries the unwritten names as a set. The source builds a list in the iteration order of a Python set, which is unspecified.
- A negative `window_size` is excluded by its type (`nat`). numpy refuses such a buffer shape at construction.
- A store without tracking has no `history` attribute in the source. The model gives it the empty map.
- Python `bool` keys, and other values that Python treats as `int`, are not distinguished. Any key that is not a string, int, slice or list is `PyOther`.
- The test file of the repository calls a constructor with different parameters and attribute access that `Series` does not have, so it does not describe this code. It is not part of this model.
