/** The series store: a fixed set of named channels, a zero-filled buffer of
    `window size` slots per channel, a staging vector of heads written during
    the current tick, and the barrier `Update` that commits them all at once. */
module Store {
  import opened SeriesTypes
  import opened RollingWindow
  import opened Views

  /** The array `a` holds the grid `g`, row by row. */
  ghost predicate Holds(a: array2<int>, g: seq<seq<int>>)
    reads a
  {
    && |g| == a.Length0
    && Rect(g, a.Length1)
    && forall i, j :: 0 <= i < a.Length0 && 0 <= j < a.Length1 ==> a[i, j] == g[i][j]
  }

  /** The name-to-row map the constructor builds from the key list: each key
      maps to the position of its LAST occurrence, since a later duplicate
      overwrites an earlier one. */
  function IndexMap(ks: seq<string>): (m: map<string, int>)
    ensures forall k :: k in m <==> k in ks
    ensures forall k :: k in m ==>
              0 <= m[k] < |ks| && ks[m[k]] == k && forall j :: m[k] < j < |ks| ==> ks[j] != k
  {
    if ks == [] then map[] else IndexMap(ks[..|ks| - 1])[ks[|ks| - 1] := |ks| - 1]
  }

  /** Cell `(i, j)` of numpy's flat roll of `a` by one to the left: the next
      cell of the row, or the first cell of the next row, or the very first cell. */
  function RolledCell(a: array2<int>, i: nat, j: nat): int
    requires i < a.Length0 && j < a.Length1
    reads a
  {
    if j + 1 < a.Length1 then a[i, j + 1]
    else if i + 1 < a.Length0 then a[i + 1, 0]
    else a[0, 0]
  }

  /** Fills row `row` of `m` with the rolled cells of `a`. */
  method RollRow(a: array2<int>, m: array2<int>, row: nat)
    requires m != a && m.Length0 == a.Length0 && m.Length1 == a.Length1 && row < a.Length0
    modifies m
    ensures forall i, j :: 0 <= i < m.Length0 && 0 <= j < m.Length1 ==>
              m[i, j] == if i == row then RolledCell(a, i, j) else old(m[i, j])
  {
    for col := 0 to m.Length1
      invariant forall i, j :: 0 <= i < m.Length0 && 0 <= j < m.Length1 ==>
                  m[i, j] == if i == row && j < col then RolledCell(a, i, j) else old(m[i, j])
    {
      m[row, col] := RolledCell(a, row, col);
    }
  }

  /** numpy's `roll(a, (0, -1))`, which returns a new array. */
  method Roll(a: array2<int>, ghost g: seq<seq<int>>) returns (m: array2<int>)
    requires Holds(a, g)
    ensures fresh(m) && m.Length0 == a.Length0 && m.Length1 == a.Length1
    ensures Holds(m, NumpyRoll(g, a.Length1))
  {
    var n, w := a.Length0, a.Length1;
    m := new int[n, w];
    for row := 0 to n
      invariant forall i, j :: 0 <= i < row && 0 <= j < w ==> m[i, j] == RolledCell(a, i, j)
    {
      RollRow(a, m, row);
    }
    if n > 0 && w > 0 {
      var rolled := NumpyRoll(g, w);
      forall i, j | 0 <= i < n && 0 <= j < w
        ensures m[i, j] == rolled[i][j]
      {
        assert rolled[i] == g[i][1..] + [Wrap(g, g[0][0])[i]];
      }
    }
  }

  /** Appending every channel's newest commit to its history log keeps each
      log equal to the channel's whole commit sequence. */
  lemma HistoryExtends(names: set<string>, km: map<string, int>, log: map<string, seq<int>>,
                       log': map<string, seq<int>>, cs: seq<seq<int>>, h: seq<int>)
    requires Uniform(cs, |h|)
    requires forall k :: k in names ==> k in km && 0 <= km[k] < |h|
    requires forall k :: k in names ==> k in log && log[k] == Channel(cs, km[k])
    requires forall k :: k in names ==> k in log' && log'[k] == log[k] + [h[km[k]]]
    ensures forall k :: k in names ==> log'[k] == Channel(cs + [h], km[k])
  {
  }

  /** The constructor's loop over the key list: every name is registered,
      and a repeated name keeps the row of its last occurrence. */
  method RegisterKeys(keyList: seq<string>) returns (names: set<string>, mappings: map<string, int>)
    ensures mappings == IndexMap(keyList) && names == mappings.Keys
  {
    names := {};
    mappings := map[];
    for i := 0 to |keyList|
      invariant names == mappings.Keys
      invariant mappings == IndexMap(keyList[..i])
    {
      var key := keyList[i];
      names := names + {key};
      mappings := mappings[key := i];
      assert keyList[..i + 1][..i] == keyList[..i];
    }
    assert keyList[..|keyList|] == keyList;
  }

  /** The history log a tracking store starts with: an empty list per name. */
  method EmptyLogs(names: set<string>) returns (log: map<string, seq<int>>)
    ensures log.Keys == names && forall k :: k in log ==> log[k] == []
  {
    log := map[];
    var rest := names;
    while rest != {}
      invariant rest <= names
      invariant log.Keys == names - rest
      invariant forall k :: k in log ==> log[k] == []
      decreases rest
    {
      var key :| key in rest;
      log := log[key := []];
      rest := rest - {key};
    }
  }

  class Series {
    var keys: set<string>
    var keyMappings: map<string, int>
    var values: array2<int>
    var heads: array<int>
    var headPositions: nat
    var windowSize: nat
    var headsAssigned: set<string>
    var trackHistory: bool
    var history: map<string, seq<int>>

    /** The contents of `values`, row by row. */
    ghost var Buffer: seq<seq<int>>
    /** The staged heads of every successful update so far, oldest first. */
    ghost var Commits: seq<seq<int>>

    /** The store's invariant: shapes agree, every name maps to a row, only
        registered names are marked as written, and the buffer, the cursor
        and the history log are what the commits so far produce. */
    ghost predicate Valid()
      reads this, values
    {
      && values.Length0 == heads.Length
      && values.Length1 == windowSize
      && Holds(values, Buffer)
      && keys == keyMappings.Keys
      && (forall k :: k in keyMappings ==> 0 <= keyMappings[k] < heads.Length)
      && headsAssigned <= keys
      && Uniform(Commits, heads.Length)
      && (windowSize == 0 ==> Commits == [])
      && headPositions == Cursor(windowSize, |Commits|)
      && Buffer == Window(heads.Length, windowSize, Commits)
      && (trackHistory ==>
            history.Keys == keys &&
            forall k :: k in keys ==> history[k] == Channel(Commits, keyMappings[k]))
      && (!trackHistory ==> history == map[])
    }

    /** `Series(keys, window_size, track_history)`. */
    constructor (keyList: seq<string>, windowSize: nat := 200, trackHistory: bool := false)
      ensures Valid() && fresh(values) && fresh(heads)
      ensures keyMappings == IndexMap(keyList) && keys == keyMappings.Keys
      ensures heads.Length == |keyList| && heads[..] == Zeros(|keyList|)
      ensures Buffer == seq(|keyList|, _ => Zeros(windowSize))
      ensures this.windowSize == windowSize && this.trackHistory == trackHistory
      ensures headPositions == 0 && headsAssigned == {} && Commits == []
      ensures trackHistory ==> history.Keys == keys && forall k :: k in keys ==> history[k] == []
      ensures !trackHistory ==> history == map[]
    {
      var n := |keyList|;
      var names, mappings := RegisterKeys(keyList);
      var log: map<string, seq<int>> := map[];
      if trackHistory {
        log := EmptyLogs(names);
      }
      keys := names;
      keyMappings := mappings;
      values := new int[n, windowSize]((_, _) => 0);
      heads := new int[n](_ => 0);
      headsAssigned := {};
      headPositions := 0;
      this.windowSize := windowSize;
      this.trackHistory := trackHistory;
      history := log;
      Buffer := seq(n, _ => Zeros(windowSize));
      Commits := [];
      EmptyWindow(n, windowSize);
    }

    /** `series[key] = value`: stages `value` as the head of channel `key`
        and marks the channel as written this tick; nothing else changes. */
    method Set(key: PyKey, value: int) returns (r: Result<()>)
      requires Valid()
      modifies heads, this`headsAssigned
      ensures Valid()
      ensures key.PyStr? && key.s in keys ==>
                && r == Ok(())
                && heads[..] == old(heads[..])[keyMappings[key.s] := value]
                && headsAssigned == old(headsAssigned) + {key.s}
      ensures key.PyStr? && key.s !in keys ==> r == Err(NonExistentHead(key.s, SetQuery))
      ensures !key.PyStr? ==> r == Err(InvalidSeriesIndex(None))
      ensures r.Err? ==> heads[..] == old(heads[..]) && headsAssigned == old(headsAssigned)
    {
      if key.PyStr? {
        var name := key.s;
        if name in keys {
          heads[keyMappings[name]] := value;
          headsAssigned := headsAssigned + {name};
          r := Ok(());
        } else {
          r := Err(NonExistentHead(name, SetQuery));
        }
      } else {
        r := Err(InvalidSeriesIndex(None));
      }
    }

    /** `series.update()`: the barrier. Every channel's write mark is
        cleared whatever happens. If a channel was not written this tick, it
        raises PrematureSeriesUpdate with exactly the unwritten names and
        commits nothing. Otherwise the staged heads become the newest column
        of the window and, when tracking, the end of every history log. */
    method Update() returns (r: Result<()>)
      requires Valid()
      modifies this`headsAssigned, this`values, this`headPositions, this`Buffer, this`history, this`Commits, values
      ensures values == old(values) || fresh(values)
      ensures Valid()
      ensures headsAssigned == {}
      ensures heads == old(heads) && keys == old(keys) && keyMappings == old(keyMappings)
      ensures windowSize == old(windowSize) && trackHistory == old(trackHistory)
      ensures !(keys <= old(headsAssigned)) ==> r == Err(PrematureSeriesUpdate(keys - old(headsAssigned)))
      ensures keys <= old(headsAssigned) && windowSize == 0 ==> r == Err(IndexError)
      ensures r.Ok? <==> keys <= old(headsAssigned) && windowSize > 0
      ensures r.Err? ==>
                && Buffer == old(Buffer)
                && headPositions == old(headPositions)
                && history == old(history)
                && Commits == old(Commits)
      ensures r.Ok? ==>
                && headPositions == NextCursor(old(headPositions), windowSize)
                && Buffer == Commit(old(Buffer), old(headPositions), windowSize, heads[..])
                && Commits == old(Commits) + [heads[..]]
                && (trackHistory ==>
                      history.Keys == keys &&
                      forall k :: k in keys ==> history[k] == old(history)[k] + [heads[keyMappings[k]]])
                && (!trackHistory ==> history == old(history))
    {
      var allAssigned, unassigned := ClearMarks();
      if !allAssigned {
        return Err(PrematureSeriesUpdate(unassigned));
      }

      r := CommitHeads();
    }

    /** The commit half of `update`, reached once every channel was written:
        it fails only for a window of no slots, where numpy refuses the
        column write, and otherwise commits the staged heads. */
    method CommitHeads() returns (r: Result<()>)
      requires Valid()
      modifies this`values, this`headPositions, this`Buffer, this`history, this`Commits, values
      ensures values == old(values) || fresh(values)
      ensures Valid()
      ensures r.Ok? <==> windowSize > 0
      ensures r.Err? ==>
                && r.error == IndexError
                && Buffer == old(Buffer)
                && headPositions == old(headPositions)
                && history == old(history)
                && Commits == old(Commits)
      ensures r.Ok? ==>
                && headPositions == NextCursor(old(headPositions), windowSize)
                && Buffer == Commit(old(Buffer), old(headPositions), windowSize, heads[..])
                && Commits == old(Commits) + [heads[..]]
                && (trackHistory ==>
                      history.Keys == keys &&
                      forall k :: k in keys ==> history[k] == old(history)[k] + [heads[keyMappings[k]]])
                && (!trackHistory ==> history == old(history))
    {
      if windowSize == 0 {
        // the roll of a window with no slots changes nothing, and numpy then
        // refuses to write column 0 of it
        ShiftOrAdvance();
        return Err(IndexError);
      }
      CommitColumn();
      r := Ok(());
    }

    /** Roll or advance, write the staged heads into the cursor's column and
        append them to the history log. */
    method CommitColumn()
      requires Valid() && windowSize >= 1
      modifies this`values, this`headPositions, this`Buffer, this`history, this`Commits, values
      ensures values == old(values) || fresh(values)
      ensures Valid()
      ensures headPositions == NextCursor(old(headPositions), windowSize)
      ensures Buffer == Commit(old(Buffer), old(headPositions), windowSize, heads[..])
      ensures Commits == old(Commits) + [heads[..]]
      ensures trackHistory ==>
                history.Keys == keys &&
                forall k :: k in keys ==> history[k] == old(history)[k] + [heads[keyMappings[k]]]
      ensures !trackHistory ==> history == old(history)
    {
      RollAndWrite();
      Record();
      CommittedIsValid(old(Commits), old(headPositions));
    }

    /** The log half of a commit: the staged heads join the commit sequence
        and, when history is tracked, every channel's log. */
    method Record()
      requires Uniform(Commits, heads.Length)
      requires keys == keyMappings.Keys
      requires forall k :: k in keyMappings ==> 0 <= keyMappings[k] < heads.Length
      requires trackHistory ==>
                 history.Keys == keys &&
                 forall k :: k in keys ==> history[k] == Channel(Commits, keyMappings[k])
      modifies this`history, this`Commits
      ensures Commits == old(Commits) + [heads[..]]
      ensures trackHistory ==>
                history.Keys == keys &&
                (forall k :: k in keys ==> history[k] == old(history)[k] + [heads[keyMappings[k]]]) &&
                forall k :: k in keys ==> history[k] == Channel(Commits, keyMappings[k])
      ensures !trackHistory ==> history == old(history)
    {
      if trackHistory {
        AppendHistory(Commits, history);
      }
      Commits := Commits + [heads[..]];
    }

    /** The buffer half of a commit: one step of the window. */
    method RollAndWrite()
      requires values.Length0 == heads.Length && values.Length1 == windowSize >= 1
      requires Holds(values, Buffer) && headPositions < windowSize
      modifies this`values, this`headPositions, this`Buffer, values
      ensures values == old(values) || fresh(values)
      ensures values.Length0 == heads.Length && values.Length1 == windowSize
      ensures Holds(values, Buffer)
      ensures headPositions == NextCursor(old(headPositions), windowSize)
      ensures Buffer == Commit(old(Buffer), old(headPositions), windowSize, heads[..])
    {
      ShiftOrAdvance();
      WriteHeads();
    }

    /** After a commit of the staged heads onto the commits `cs`, the store is
        valid again: the buffer and the cursor are the window and cursor of
        the longer commit sequence. */
    lemma CommittedIsValid(cs: seq<seq<int>>, hp: nat)
      requires values.Length0 == heads.Length && values.Length1 == windowSize >= 1
      requires Holds(values, Buffer)
      requires keys == keyMappings.Keys && headsAssigned <= keys
      requires forall k :: k in keyMappings ==> 0 <= keyMappings[k] < heads.Length
      requires Uniform(cs, heads.Length) && hp == Cursor(windowSize, |cs|)
      requires Commits == cs + [heads[..]]
      requires headPositions == NextCursor(hp, windowSize)
      requires Buffer == Commit(Window(heads.Length, windowSize, cs), hp, windowSize, heads[..])
      requires trackHistory ==>
                 history.Keys == keys &&
                 forall k :: k in keys ==> history[k] == Channel(cs + [heads[..]], keyMappings[k])
      requires !trackHistory ==> history == map[]
      ensures Valid()
    {
      CommitExtendsWindow(heads.Length, windowSize, cs, heads[..]);
    }

    /** The barrier loop of `update`: every key is checked against the write
        marks, its mark is removed when present and the key is reported
        otherwise. */
    method ClearMarks() returns (allAssigned: bool, unassigned: set<string>)
      requires Valid()
      modifies this`headsAssigned
      ensures Valid()
      ensures headsAssigned == old(headsAssigned) - keys
      ensures unassigned == keys - old(headsAssigned)
      ensures allAssigned <==> keys <= old(headsAssigned)
    {
      allAssigned := true;
      unassigned := {};
      var rest := keys;
      while rest != {}
        invariant rest <= keys
        invariant unassigned == (keys - rest) - old(headsAssigned)
        invariant headsAssigned == old(headsAssigned) - (keys - rest)
        invariant allAssigned <==> unassigned == {}
        decreases rest
      {
        var key :| key in rest;
        if key !in headsAssigned {
          allAssigned := false;
          unassigned := unassigned + {key};
        } else {
          headsAssigned := headsAssigned - {key};
        }
        rest := rest - {key};
      }
      assert keys - rest == keys;
    }

    /** The first step of a commit: shift the buffer with numpy's flat roll
        when the cursor is on the last slot, otherwise move the cursor on. */
    method ShiftOrAdvance()
      requires values.Length1 == windowSize && Holds(values, Buffer)
      modifies this`values, this`headPositions, this`Buffer
      ensures values.Length0 == old(values.Length0) && values.Length1 == windowSize
      ensures Holds(values, Buffer)
      ensures Rolls(old(headPositions), windowSize) ==>
                headPositions == old(headPositions) && fresh(values) &&
                Buffer == NumpyRoll(old(Buffer), windowSize)
      ensures !Rolls(old(headPositions), windowSize) ==>
                headPositions == old(headPositions) + 1 && values == old(values) &&
                Buffer == old(Buffer)
    {
      if headPositions + 1 > windowSize - 1 {
        values := Roll(values, Buffer);
        Buffer := NumpyRoll(Buffer, windowSize);
      } else {
        headPositions := headPositions + 1;
      }
    }

    /** The second step of a commit: `values[:, head_positions] = heads`. */
    method WriteHeads()
      requires values.Length0 == heads.Length && headPositions < values.Length1
      requires Holds(values, Buffer)
      modifies values, this`Buffer
      ensures Holds(values, Buffer)
      ensures Buffer == WriteColumn(old(Buffer), headPositions, heads[..])
    {
      var n, w := values.Length0, values.Length1;
      Buffer := WriteColumn(Buffer, headPositions, heads[..]);
      for row := 0 to n
        modifies values
        invariant forall i, j :: 0 <= i < n && 0 <= j < w ==>
                    values[i, j] == if i < row && j == headPositions then heads[i] else old(Buffer)[i][j]
      {
        values[row, headPositions] := heads[row];
      }
    }

    /** The last step of a commit: every key's history log receives the
        key's staged head. */
    method AppendHistory(ghost cs: seq<seq<int>>, ghost log: map<string, seq<int>>)
      requires history == log
      requires history.Keys == keys && Uniform(cs, heads.Length)
      requires forall k :: k in keys ==> k in keyMappings && 0 <= keyMappings[k] < heads.Length
      requires forall k :: k in keys ==> history[k] == Channel(cs, keyMappings[k])
      modifies this`history
      ensures history.Keys == keys
      ensures forall k :: k in keys ==> history[k] == log[k] + [heads[keyMappings[k]]]
      ensures forall k :: k in keys ==> history[k] == Channel(cs + [heads[..]], keyMappings[k])
    {
      var rest := keys;
      while rest != {}
        invariant rest <= keys
        invariant history.Keys == keys
        invariant forall k :: k in keys ==>
                    history[k] == if k in rest then old(history)[k]
                                  else old(history)[k] + [heads[keyMappings[k]]]
        decreases rest
      {
        var key :| key in rest;
        history := history[key := history[key] + [heads[keyMappings[key]]]];
        rest := rest - {key};
      }
      HistoryExtends(keys, keyMappings, old(history), history, cs, heads[..]);
    }

    /** With tracking on, every history log is as long as the number of
        successful updates so far. */
    lemma HistoryCountsCommits()
      requires Valid()
      ensures trackHistory ==> forall k :: k in keys ==> |history[k]| == |Commits|
    {
    }

    /** `series[key]`: the view of one channel. Its scalar is the channel's
        STAGED head, which a later write changes without an update; its row is
        the channel's window as the commits so far leave it. Reading fails
        while the cursor is on slot 0, that is before the first update and
        for ever with a window of one slot. */
    function Get(key: PyKey): (r: Result<HeadView>)
      requires Valid()
      reads this, values, heads
      ensures AsList(key) == [] ==> r == Err(IndexError)
      ensures AsList(key) != [] && KeyName(key).None? ==> r == Err(InvalidSeriesIndex(None))
      ensures KeyName(key).Some? && KeyName(key).value !in keys ==>
                r == Err(NonExistentHead(KeyName(key).value, GetQuery))
      ensures KeyName(key).Some? && KeyName(key).value in keys ==>
                var name := KeyName(key).value;
                && (r.Ok? <==> Commits != [] && windowSize >= 2)
                && (r.Err? ==> r.error == UnAssignedHead(name))
                && (r.Ok? ==>
                      && r.value.name == name
                      && r.value.value == heads[keyMappings[name]]
                      && r.value.values == WindowRow(windowSize, Channel(Commits, keyMappings[name])))
    {
      var items := AsList(key);
      if items == [] then Err(IndexError)
      else if items[0].PyStr? && |items| == 1 then
        var name := items[0].s;
        if name in keys then
          if headPositions > 0 then
            var idx := keyMappings[name];
            Ok(HeadView(heads[idx], RowOf(idx), name))
          else
            Err(UnAssignedHead(name))
        else
          Err(NonExistentHead(name, GetQuery))
      else
        Err(InvalidSeriesIndex(None))
    }

    /** A snapshot of row `idx` of the buffer. */
    function RowOf(idx: nat): (row: seq<int>)
      requires idx < values.Length0 && Holds(values, Buffer)
      reads this, values
      ensures row == Buffer[idx]
    {
      seq(values.Length1, c requires idx < values.Length0 && 0 <= c < values.Length1 reads this, values => values[idx, c])
    }
  }

  /** `Series(keys)` takes the default window of 200 slots and no history. */
  method DefaultStore() returns (s: Series)
    ensures s.Valid() && s.windowSize == 200 && !s.trackHistory && s.history == map[]
    ensures s.keys == {"a"} && s.headPositions == 0
  {
    s := new Series(["a"]);
  }

  /** A new store with channels "a" and "b", a window of three slots and
      history. */
  method Fresh() returns (s: Series)
    ensures fresh(s) && fresh(s.values) && fresh(s.heads) && s.Valid()
    ensures s.keys == {"a", "b"} && s.keyMappings == map["a" := 0, "b" := 1]
    ensures s.windowSize == 3 && s.trackHistory && s.headsAssigned == {} && s.Commits == []
    ensures s.heads[..] == [0, 0]
  {
    assert "a" != "b" by { assert "a"[0] != "b"[0]; }
    s := new Series(["a", "b"], 3, true);
    assert ["a", "b"][..1] == ["a"];
  }

  /** That store after one complete tick that wrote 7 and 8. */
  method FirstTick() returns (s: Series)
    ensures fresh(s) && fresh(s.values) && fresh(s.heads) && s.Valid()
    ensures s.keys == {"a", "b"} && s.keyMappings == map["a" := 0, "b" := 1]
    ensures s.windowSize == 3 && s.trackHistory && s.headsAssigned == {}
    ensures s.heads[..] == [7, 8] && s.Commits == [[7, 8]]
  {
    assert "a" != "b" by { assert "a"[0] != "b"[0]; }
    s := Fresh();
    var r := s.Set(PyStr("a"), 7);
    r := s.Set(PyStr("b"), 8);
    assert s.heads[..] == [7, 8] && s.headsAssigned == {"a", "b"};
    r := s.Update();
  }

  /** A second tick on that store writes only "a": the update is refused
      naming "b", and nothing is committed. */
  method SecondTick(s: Series) returns (second: Result<()>)
    requires s.Valid() && s.trackHistory
    requires s.keys == {"a", "b"} && s.keyMappings == map["a" := 0, "b" := 1]
    requires s.windowSize == 3 && s.headsAssigned == {}
    requires s.heads[..] == [7, 8] && s.Commits == [[7, 8]]
    modifies s, s.values, s.heads
    ensures s.Valid() && s.windowSize == 3 && s.trackHistory
    ensures s.keys == {"a", "b"} && s.keyMappings == map["a" := 0, "b" := 1]
    ensures second == Err(PrematureSeriesUpdate({"b"}))
    ensures s.heads[..] == [6, 8] && s.Commits == [[7, 8]]
  {
    assert "a" != "b" by { assert "a"[0] != "b"[0]; }
    var r := s.Set(PyStr("a"), 6);
    assert s.headsAssigned == {"a"};
    assert "b" !in s.headsAssigned && s.keys - s.headsAssigned == {"b"};
    second := s.Update();
  }

  /** Over both ticks: the second update is refused, and a read of "a" then
      sees the staged 6 as its scalar, with the committed 7 in slot 1 of its
      row and as its whole history log. */
  method TwoTicks() returns (second: Result<()>, view: Result<HeadView>, log: seq<int>)
    ensures second == Err(PrematureSeriesUpdate({"b"}))
    ensures view == Ok(HeadView(6, [0, 7, 0], "a"))
    ensures log == [7]
  {
    var s := FirstTick();
    second := SecondTick(s);
    assert Channel(s.Commits, 0) == [7];
    assert WindowRow(3, [7]) == [0, 7, 0] by { assert Zeros(1) == [0]; }
    view := s.Get(PyStr("a"));
    log := s.history["a"];
  }
}
