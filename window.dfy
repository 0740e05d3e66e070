/** The window buffer of a series store as plain values: a grid of
    channels (rows) by window slots (columns), the cursor that marks the most
    recently written slot, and the commit step `Series.update` performs on them.

    `Window` describes what the buffer holds after a sequence of commits; the
    lemmas prove that replaying the commit step from the zero-filled buffer
    always produces that description. */
module RollingWindow {

  /** A zero-filled row, as the buffer is allocated. */
  function Zeros(k: nat): seq<int>
  {
    seq(k, _ => 0)
  }

  /** Every row of `g` has `w` columns. */
  ghost predicate Rect(g: seq<seq<int>>, w: nat)
  {
    forall r :: 0 <= r < |g| ==> |g[r]| == w
  }

  /** Every committed column holds one value per channel. */
  ghost predicate Uniform(cs: seq<seq<int>>, n: nat)
  {
    forall i :: 0 <= i < |cs| ==> |cs[i]| == n
  }

  /** The values committed for channel `r`, oldest first. */
  function Channel(cs: seq<seq<int>>, r: nat): seq<int>
    requires forall i :: 0 <= i < |cs| ==> r < |cs[i]|
  {
    seq(|cs|, i requires 0 <= i < |cs| => cs[i][r])
  }

  /** One more commit appends its value to every channel. */
  lemma ChannelSnoc(cs: seq<seq<int>>, h: seq<int>, r: nat)
    requires forall i :: 0 <= i < |cs| ==> r < |cs[i]|
    requires r < |h|
    ensures Channel(cs + [h], r) == Channel(cs, r) + [h[r]]
  {
  }

  /** One channel's row of a window of `w` slots after the commits `ch`:
      while fewer than `w` values were committed, slot 0 keeps its initial
      zero, the commits follow in order and the rest is still zero; from then
      on the row holds the last `w` commits, oldest first. */
  function WindowRow(w: nat, ch: seq<int>): (row: seq<int>)
    ensures |row| == w
  {
    if |ch| < w then [0] + ch + Zeros(w - 1 - |ch|) else ch[|ch| - w..]
  }

  /** The whole buffer of `n` channels after the commits `cs`. */
  function Window(n: nat, w: nat, cs: seq<seq<int>>): (g: seq<seq<int>>)
    requires Uniform(cs, n)
    ensures |g| == n && Rect(g, w)
  {
    seq(n, r requires 0 <= r < n => WindowRow(w, Channel(cs, r)))
  }

  /** Where the cursor stands after `k` commits: it moves one slot per commit
      until it reaches the last slot and stays there. */
  function Cursor(w: nat, k: nat): (hp: nat)
    ensures w >= 1 ==> hp < w
    ensures w == 0 ==> hp == 0
    ensures hp > 0 <==> w >= 2 && k > 0
  {
    if w == 0 then 0 else if k < w - 1 then k else w - 1
  }

  lemma EmptyWindow(n: nat, w: nat)
    ensures Window(n, w, []) == seq(n, _ => Zeros(w))
  {
    forall r | 0 <= r < n
      ensures Window(n, w, [])[r] == Zeros(w)
    {
      assert Channel([], r) == [];
      if w > 0 {
        assert WindowRow(w, []) == [0] + Zeros(w - 1);
      }
    }
  }

  // ---- numpy's roll over the flattened buffer ----

  function Flatten(g: seq<seq<int>>): seq<int>
  {
    if g == [] then [] else g[0] + Flatten(g[1..])
  }

  /** Cuts a flat sequence back into rows of `w`. */
  function Reshape(s: seq<int>, w: nat): seq<seq<int>>
    requires w >= 1
    decreases |s|
  {
    if |s| <= w then (if s == [] then [] else [s]) else [s[..w]] + Reshape(s[w..], w)
  }

  /** Each row shifted left by one slot, with `last[r]` entering row `r` at the end. */
  function ShiftIn(g: seq<seq<int>>, last: seq<int>): seq<seq<int>>
    requires |last| == |g|
    requires forall r :: 0 <= r < |g| ==> |g[r]| >= 1
  {
    seq(|g|, r requires 0 <= r < |g| => g[r][1..] + [last[r]])
  }

  /** What a flat left rotation carries into the last slot of each row: the
      first value of the next row, and `x` for the last row. */
  function Wrap(g: seq<seq<int>>, x: int): seq<int>
    requires forall r :: 0 <= r < |g| ==> |g[r]| >= 1
  {
    seq(|g|, r requires 0 <= r < |g| => if r + 1 < |g| then g[r + 1][0] else x)
  }

  lemma {:induction false} ShiftFlat(g: seq<seq<int>>, w: nat, x: int)
    requires w >= 1 && g != [] && Rect(g, w)
    ensures Reshape(Flatten(g)[1..] + [x], w) == ShiftIn(g, Wrap(g, x))
  {
    var s := Flatten(g)[1..] + [x];
    var head := g[0][1..];
    assert Flatten(g)[1..] == head + Flatten(g[1..]);
    if |g| == 1 {
      assert Flatten(g[1..]) == [];
      assert s == head + [x];
      assert ShiftIn(g, Wrap(g, x)) == [head + [x]];
    } else {
      var rest := g[1..];
      ShiftFlat(rest, w, x);
      assert Flatten(rest)[1..] == rest[0][1..] + Flatten(rest[1..]);
      var first := head + [rest[0][0]];
      var tail := Flatten(rest)[1..] + [x];
      assert Flatten(rest) == [rest[0][0]] + Flatten(rest)[1..];
      assert s == first + tail;
      assert |first| == w && |tail| >= w;
      assert s[..w] == first && s[w..] == tail;
      assert Reshape(s, w) == [first] + Reshape(tail, w);
      assert Wrap(g, x)[1..] == Wrap(rest, x);
      assert ShiftIn(g, Wrap(g, x)) == [first] + ShiftIn(rest, Wrap(rest, x));
    }
  }

  /** numpy's `roll(g, (0, -1))` without an axis: the buffer is flattened row
      by row, rotated left by one and cut back into rows of `w`. Every row thus
      moves left by one slot, and its last slot receives the first value of the
      next row (of the first row, for the last one). */
  function NumpyRoll(g: seq<seq<int>>, w: nat): (rolled: seq<seq<int>>)
    requires Rect(g, w)
    ensures |rolled| == |g| && Rect(rolled, w)
    ensures g != [] && w >= 1 ==> rolled == ShiftIn(g, Wrap(g, g[0][0]))
  {
    if g == [] || w == 0 then g
    else
      var f := Flatten(g);
      assert f == g[0] + Flatten(g[1..]);
      ShiftFlat(g, w, f[0]);
      Reshape(f[1..] + [f[0]], w)
  }

  /** The buffer with column `col` replaced by `h`. */
  function WriteColumn(g: seq<seq<int>>, col: nat, h: seq<int>): (g': seq<seq<int>>)
    requires |h| == |g|
    requires forall r :: 0 <= r < |g| ==> col < |g[r]|
    ensures |g'| == |g| && forall r :: 0 <= r < |g| ==> |g'[r]| == |g[r]|
  {
    seq(|g|, r requires 0 <= r < |g| => g[r][col := h[r]])
  }

  /** Overwriting the last column after the flat roll leaves exactly a
      per-row left shift with `h` entering at the end: the value that wrapped
      around from the next row never survives. */
  lemma RollThenWrite(g: seq<seq<int>>, w: nat, h: seq<int>)
    requires w >= 1 && Rect(g, w) && |h| == |g|
    ensures WriteColumn(NumpyRoll(g, w), w - 1, h) == ShiftIn(g, h)
  {
    if g != [] {
      var rolled := NumpyRoll(g, w);
      forall r | 0 <= r < |g|
        ensures WriteColumn(rolled, w - 1, h)[r] == ShiftIn(g, h)[r]
      {
        assert rolled[r] == g[r][1..] + [Wrap(g, g[0][0])[r]];
      }
    }
  }

  // ---- the commit step of Series.update ----

  /** Whether the commit shifts the buffer instead of moving the cursor. */
  predicate Rolls(hp: nat, w: nat)
  {
    hp + 1 > w - 1
  }

  /** The cursor after a commit from cursor `hp`: the next slot, or the last
      slot again once it is reached. */
  function NextCursor(hp: nat, w: nat): (hp': nat)
    requires hp < w
    ensures hp' < w
    ensures hp' == if hp == w - 1 then hp else hp + 1
  {
    if Rolls(hp, w) then hp else hp + 1
  }

  /** One successful `update` on the buffer: roll when the cursor is on the
      last slot, otherwise move the cursor; then write the staged heads into
      the cursor's column. */
  function Commit(g: seq<seq<int>>, hp: nat, w: nat, h: seq<int>): (g': seq<seq<int>>)
    requires hp < w && Rect(g, w) && |h| == |g|
    ensures |g'| == |g| && Rect(g', w)
  {
    WriteColumn(if Rolls(hp, w) then NumpyRoll(g, w) else g, NextCursor(hp, w), h)
  }

  /** One channel's row of the window takes one more commit. */
  lemma WindowRowStep(w: nat, ch: seq<int>, x: int)
    requires w >= 1
    ensures var hp := Cursor(w, |ch|);
            var row := WindowRow(w, ch);
            (if Rolls(hp, w) then row[1..] + [x] else row[hp + 1 := x]) == WindowRow(w, ch + [x])
  {
  }

  /** What a commit does to one row of the buffer. */
  lemma CommitRow(g: seq<seq<int>>, hp: nat, w: nat, h: seq<int>, r: nat)
    requires hp < w && Rect(g, w) && |h| == |g| && r < |g|
    ensures Commit(g, hp, w, h)[r]
            == if Rolls(hp, w) then g[r][1..] + [h[r]] else g[r][hp + 1 := h[r]]
  {
  }

  /** A commit from the buffer and cursor that `cs` leaves behind yields the
      buffer and cursor of `cs + [h]`. */
  lemma CommitExtendsWindow(n: nat, w: nat, cs: seq<seq<int>>, h: seq<int>)
    requires w >= 1 && Uniform(cs, n) && |h| == n
    ensures Uniform(cs + [h], n)
    ensures Commit(Window(n, w, cs), Cursor(w, |cs|), w, h) == Window(n, w, cs + [h])
    ensures NextCursor(Cursor(w, |cs|), w) == Cursor(w, |cs| + 1)
  {
    var cs' := cs + [h];
    assert forall i :: 0 <= i < |cs| ==> cs'[i] == cs[i];
    var g := Window(n, w, cs);
    var hp := Cursor(w, |cs|);
    var g' := Commit(g, hp, w, h);
    var want := Window(n, w, cs');
    forall r | 0 <= r < n
      ensures g'[r] == want[r]
    {
      var ch := Channel(cs, r);
      assert g[r] == WindowRow(w, ch);
      CommitRow(g, hp, w, h, r);
      ChannelSnoc(cs, h, r);
      WindowRowStep(w, ch, h[r]);
      assert want[r] == WindowRow(w, ch + [h[r]]);
    }
    assert |g'| == |want|;
  }

  /** The buffer and cursor after replaying the commits `cs` from a freshly
      allocated store with `n` channels and a window of `w` slots. */
  function Replay(n: nat, w: nat, cs: seq<seq<int>>): (s: (seq<seq<int>>, nat))
    requires w >= 1 && Uniform(cs, n)
    ensures |s.0| == n && Rect(s.0, w) && s.1 < w
  {
    if cs == [] then (seq(n, _ => Zeros(w)), 0)
    else
      var prev := Replay(n, w, cs[..|cs| - 1]);
      (Commit(prev.0, prev.1, w, cs[|cs| - 1]), NextCursor(prev.1, w))
  }

  /** Window contents as a function of the commit sequence: replaying any
      commits gives exactly `Window` and `Cursor`. */
  lemma {:induction false} ReplayIsWindow(n: nat, w: nat, cs: seq<seq<int>>)
    requires w >= 1 && Uniform(cs, n)
    ensures Replay(n, w, cs) == (Window(n, w, cs), Cursor(w, |cs|))
  {
    if cs == [] {
      EmptyWindow(n, w);
    } else {
      var prefix := cs[..|cs| - 1];
      ReplayIsWindow(n, w, prefix);
      CommitExtendsWindow(n, w, prefix, cs[|cs| - 1]);
      assert prefix + [cs[|cs| - 1]] == cs;
    }
  }
}
