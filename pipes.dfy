/** The pipe layout of the play scene, as values: where placePipe puts a
    pair, where createPipes leaves the whole pool, and which pipes
    recyclePipes finds off screen. */
module Pipes {
  import opened Common
  import opened Difficulty

  /** One pipe sprite. `x` is its left edge (both origins have 0 as their
      horizontal component); `y` is the bottom end of an upper pipe and the
      top end of a lower pipe. */
  datatype Pipe = Pipe(x: int, y: int, width: nat)

  /** getBounds().right of a pipe. */
  function RightEdge(p: Pipe): int {
    p.x + p.width
  }

  /** A pipe that has scrolled completely past the left edge. */
  predicate Offscreen(p: Pipe)
    ensures Offscreen(p) <==> p.x <= -(p.width as int)
    ensures Offscreen(p) ==> p.x <= 0
  {
    RightEdge(p) <= 0
  }

  /** The three numbers placePipe draws with Phaser.Math.Between, in the
      order it draws them. */
  datatype Draw = Draw(verticalDistance: int, verticalPosition: int, horizontalDistance: int)

  /** The draws Phaser.Math.Between can return for a tier's settings: the gap
      from the vertical range, the upper end between the top margin and the
      point that leaves room for the gap above the bottom margin, and the
      spacing from the horizontal range. */
  predicate DrawFits(d: Draw, s: Settings) {
    && s.vertical.Contains(d.verticalDistance)
    && PIPE_MARGIN <= d.verticalPosition <= HEIGHT - PIPE_MARGIN - d.verticalDistance
    && s.horizontal.Contains(d.horizontalDistance)
  }

  /** Every draw of a sequence fits a tier. */
  predicate AllFit(draws: seq<Draw>, t: Tier) {
    forall i :: 0 <= i < |draws| ==> DrawFits(draws[i], SettingsOf(t))
  }

  /** getRightMostPipe: the largest `x` among the pipes, visited in order,
      starting from 0. */
  function RightMostX(s: seq<Pipe>): (r: int)
    ensures r >= 0
    ensures forall i :: 0 <= i < |s| ==> s[i].x <= r
    ensures r == 0 || exists i :: 0 <= i < |s| && s[i].x == r
  {
    if s == [] then 0
    else
      var rest := RightMostX(s[..|s| - 1]);
      assert forall i :: 0 <= i < |s| - 1 ==> s[..|s| - 1][i] == s[i];
      Max(s[|s| - 1].x, rest)
  }

  /** placePipe(s[u], s[l]) for a draw of tier `t`: both pipes move to the
      column one horizontal distance right of the rightmost pipe, the upper
      one ending at the drawn position and the lower one starting the drawn
      gap below it. Nothing else moves. */
  function Placed(s: seq<Pipe>, u: nat, l: nat, t: Tier, d: Draw): (r: seq<Pipe>)
    requires u < |s| && l < |s| && u != l
    requires DrawFits(d, SettingsOf(t))
    ensures |r| == |s|
  {
    var x := RightMostX(s) + d.horizontalDistance;
    s[u := Pipe(x, d.verticalPosition, s[u].width)]
     [l := Pipe(x, d.verticalPosition + d.verticalDistance, s[l].width)]
  }

  /** What placement guarantees: the two pipes share a column whose distance
      from the previous rightmost `x` is in the tier's horizontal range, the
      gap is in the tier's vertical range, both ends keep the margin, and
      every other pipe is unchanged and strictly left of the new column. */
  lemma PlacedLayout(s: seq<Pipe>, u: nat, l: nat, t: Tier, d: Draw)
    requires u < |s| && l < |s| && u != l
    requires DrawFits(d, SettingsOf(t))
    ensures var r := Placed(s, u, l, t, d);
      && r[u].x == r[l].x
      && SettingsOf(t).horizontal.Contains(r[u].x - RightMostX(s))
      && SettingsOf(t).vertical.Contains(r[l].y - r[u].y)
      && PIPE_MARGIN <= r[u].y && r[l].y <= HEIGHT - PIPE_MARGIN
      && r[u].width == s[u].width && r[l].width == s[l].width
      && forall k :: 0 <= k < |s| && k != u && k != l ==> r[k] == s[k] && r[k].x < r[u].x
  {
  }

  /** After placement the placed pair is the rightmost column. */
  lemma PlacedIsRightMost(s: seq<Pipe>, u: nat, l: nat, t: Tier, d: Draw)
    requires u < |s| && l < |s| && u != l
    requires DrawFits(d, SettingsOf(t))
    ensures RightMostX(Placed(s, u, l, t, d)) == Placed(s, u, l, t, d)[u].x
  {
    var r := Placed(s, u, l, t, d);
    assert r[u].x > 0;
    forall k | 0 <= k < |r|
      ensures r[k].x <= r[u].x
    {
    }
  }

  /** The upper pipe of pair `k` in the pool's order. */
  function Upper(s: seq<Pipe>, k: nat): Pipe
    requires 2 * k + 1 < |s|
  {
    s[2 * k]
  }

  /** The lower pipe of pair `k` in the pool's order. */
  function Lower(s: seq<Pipe>, k: nat): Pipe
    requires 2 * k + 1 < |s|
  {
    s[2 * k + 1]
  }

  /** Horizontal distance from pair k - 1's column to pair k's. */
  function Spacing(s: seq<Pipe>, k: nat): int
    requires 0 < k && 2 * k + 1 < |s|
  {
    Upper(s, k).x - Upper(s, k - 1).x
  }

  /** Height of the gap between the two pipes of pair k. */
  function Opening(s: seq<Pipe>, k: nat): int
    requires 2 * k + 1 < |s|
  {
    Lower(s, k).y - Upper(s, k).y
  }

  /** The pool just after its sprites are created at (0, 0). */
  function Unplaced(width: nat): (r: seq<Pipe>)
    ensures |r| == PIPE_SPRITES
    ensures forall i :: 0 <= i < |r| ==> r[i] == Pipe(0, 0, width)
  {
    seq(PIPE_SPRITES, _ => Pipe(0, 0, width))
  }

  /** createPipes after `n` iterations of its loop: pairs 0 to n - 1 placed
      in order, pair k with draws[k], each onto the pool as the earlier
      pairs left it. */
  function Layout(width: nat, draws: seq<Draw>, t: Tier, n: nat): (r: seq<Pipe>)
    requires n <= |draws| && n <= PIPES_TO_RENDER && AllFit(draws, t)
    ensures |r| == PIPE_SPRITES
  {
    if n == 0 then Unplaced(width)
    else Placed(Layout(width, draws, t, n - 1), 2 * (n - 1), 2 * (n - 1) + 1, t, draws[n - 1])
  }

  /** The sum of the first `n` horizontal distances drawn. */
  function Offset(draws: seq<Draw>, n: nat): int
    requires n <= |draws|
  {
    if n == 0 then 0 else Offset(draws, n - 1) + draws[n - 1].horizontalDistance
  }

  /** The upper pipe of pair k as createPipes places it from `draws`. */
  function PlacedUpper(draws: seq<Draw>, width: nat, k: nat): Pipe
    requires k < |draws|
  {
    Pipe(Offset(draws, k + 1), draws[k].verticalPosition, width)
  }

  /** The lower pipe of pair k as createPipes places it from `draws`. */
  function PlacedLower(draws: seq<Draw>, width: nat, k: nat): Pipe
    requires k < |draws|
  {
    Pipe(Offset(draws, k + 1), draws[k].verticalPosition + draws[k].verticalDistance, width)
  }

  /** Offsets grow strictly with every draw of a tier. */
  lemma {:induction false} OffsetIncreasing(draws: seq<Draw>, t: Tier, j: nat, k: nat)
    requires j < k <= |draws| && AllFit(draws, t)
    ensures Offset(draws, j) < Offset(draws, k)
  {
    if j < k - 1 {
      OffsetIncreasing(draws, t, j, k - 1);
    }
    assert DrawFits(draws[k - 1], SettingsOf(t));
  }

  /** Where createPipes leaves each pipe after `n` iterations: pair k sits at
      the sum of the first k + 1 horizontal distances, with the vertical
      position and gap of draw k, the sprites not yet placed are still at
      (0, 0), and no width changes. */
  predicate PairsPlaced(r: seq<Pipe>, width: nat, draws: seq<Draw>, n: nat)
    requires |r| == PIPE_SPRITES && n <= |draws| && n <= PIPES_TO_RENDER
  {
    && (forall k :: 0 <= k < n ==> Upper(r, k) == PlacedUpper(draws, width, k))
    && (forall k :: 0 <= k < n ==> Lower(r, k) == PlacedLower(draws, width, k))
    && (forall i :: 2 * n <= i < PIPE_SPRITES ==> r[i] == Pipe(0, 0, width))
    && (forall i :: 0 <= i < PIPE_SPRITES ==> r[i].width == width)
  }

  /** Placing pair n - 1 at the next offset, with nothing else moving, turns
      a pool placed up to pair n - 2 into one placed up to pair n - 1. */
  lemma PairsPlacedStep(prev: seq<Pipe>, r: seq<Pipe>, width: nat, draws: seq<Draw>, n: nat)
    requires |prev| == PIPE_SPRITES && |r| == PIPE_SPRITES
    requires 0 < n <= |draws| && n <= PIPES_TO_RENDER
    requires PairsPlaced(prev, width, draws, n - 1)
    requires Upper(r, n - 1) == Pipe(Offset(draws, n), draws[n - 1].verticalPosition, prev[2 * (n - 1)].width)
    requires Lower(r, n - 1) == Pipe(Offset(draws, n),
      draws[n - 1].verticalPosition + draws[n - 1].verticalDistance, prev[2 * (n - 1) + 1].width)
    requires forall i :: 0 <= i < PIPE_SPRITES && i != 2 * (n - 1) && i != 2 * (n - 1) + 1 ==> r[i] == prev[i]
    ensures PairsPlaced(r, width, draws, n)
  {
    assert prev[2 * (n - 1)].width == width && prev[2 * (n - 1) + 1].width == width;
    forall k | 0 <= k < n - 1
      ensures Upper(r, k) == Upper(prev, k) && Lower(r, k) == Lower(prev, k)
    {
    }
  }

  /** One iteration of createPipes: placing pair n - 1 with draw n - 1 onto
      a pool placed up to pair n - 2, whose rightmost column is the last
      one placed, gives a pool placed up to pair n - 1 whose rightmost
      column is the new one. */
  lemma PlacedStep(prev: seq<Pipe>, width: nat, draws: seq<Draw>, t: Tier, n: nat)
    requires |prev| == PIPE_SPRITES && 0 < n <= |draws| && n <= PIPES_TO_RENDER
    requires DrawFits(draws[n - 1], SettingsOf(t))
    requires RightMostX(prev) == Offset(draws, n - 1)
    requires PairsPlaced(prev, width, draws, n - 1)
    ensures var r := Placed(prev, 2 * (n - 1), 2 * (n - 1) + 1, t, draws[n - 1]);
      RightMostX(r) == Offset(draws, n) && PairsPlaced(r, width, draws, n)
  {
    var r := Placed(prev, 2 * (n - 1), 2 * (n - 1) + 1, t, draws[n - 1]);
    PlacedIsRightMost(prev, 2 * (n - 1), 2 * (n - 1) + 1, t, draws[n - 1]);
    PairsPlacedStep(prev, r, width, draws, n);
  }

  /** The layout after `n` iterations is placed up to pair n - 1, and its
      rightmost column is the last one placed. */
  lemma {:induction false} LayoutPairs(width: nat, draws: seq<Draw>, t: Tier, n: nat)
    requires n <= |draws| && n <= PIPES_TO_RENDER && AllFit(draws, t)
    ensures RightMostX(Layout(width, draws, t, n)) == Offset(draws, n)
    ensures PairsPlaced(Layout(width, draws, t, n), width, draws, n)
  {
    if n == 0 {
      assert Layout(width, draws, t, n) == Unplaced(width);
    } else {
      LayoutPairs(width, draws, t, n - 1);
      assert DrawFits(draws[n - 1], SettingsOf(t));
      PlacedStep(Layout(width, draws, t, n - 1), width, draws, t, n);
    }
  }

  /** The properties of a finished layout, from the positions LayoutPairs
      gives each pair. */
  lemma {:induction false} ColumnsFromOffsets(r: seq<Pipe>, width: nat, draws: seq<Draw>, t: Tier)
    requires |r| == PIPE_SPRITES && |draws| == PIPES_TO_RENDER && AllFit(draws, t)
    requires PairsPlaced(r, width, draws, |draws|)
    ensures SettingsOf(t).horizontal.Contains(Upper(r, 0).x)
    ensures forall k :: 0 < k < |draws| ==>
      SettingsOf(t).horizontal.Contains(Spacing(r, k))
    ensures forall j, k :: 0 <= j < k < |draws| ==> Upper(r, j).x < Upper(r, k).x
    ensures forall k :: 0 <= k < |draws| ==>
      && SettingsOf(t).vertical.Contains(Opening(r, k))
      && PIPE_MARGIN <= Upper(r, k).y
      && Lower(r, k).y <= HEIGHT - PIPE_MARGIN
  {
    forall k | 0 <= k < |draws|
      ensures DrawFits(draws[k], SettingsOf(t))
      ensures Offset(draws, k + 1) == Offset(draws, k) + draws[k].horizontalDistance
    {
    }
    assert Offset(draws, 0) == 0;
    forall j, k | 0 <= j < k < |draws|
      ensures Upper(r, j).x < Upper(r, k).x
    {
      OffsetIncreasing(draws, t, j + 1, k + 1);
    }
  }

  /** createPipes places all PIPES_TO_RENDER pairs: each pair shares one
      column, the first column is one horizontal distance from 0, columns
      are strictly increasing with consecutive differences in the tier's
      horizontal range, every gap is in bounds, and no width changes. */
  lemma CreatedLayout(width: nat, draws: seq<Draw>, t: Tier)
    requires |draws| == PIPES_TO_RENDER && AllFit(draws, t)
    ensures var r := Layout(width, draws, t, |draws|);
      && (forall i :: 0 <= i < |r| ==> r[i].width == width)
      && (forall k :: 0 <= k < |draws| ==> Upper(r, k).x == Lower(r, k).x)
      && SettingsOf(t).horizontal.Contains(Upper(r, 0).x)
      && (forall k :: 0 < k < |draws| ==>
            SettingsOf(t).horizontal.Contains(Spacing(r, k)))
      && (forall j, k :: 0 <= j < k < |draws| ==> Upper(r, j).x < Upper(r, k).x)
      && (forall k :: 0 <= k < |draws| ==>
            && SettingsOf(t).vertical.Contains(Opening(r, k))
            && PIPE_MARGIN <= Upper(r, k).y
            && Lower(r, k).y <= HEIGHT - PIPE_MARGIN)
  {
    LayoutPairs(width, draws, t, |draws|);
    ColumnsFromOffsets(Layout(width, draws, t, |draws|), width, draws, t);
  }

  /** The indices, in list order, of the pipes recyclePipes collects into
      `tempPipes`: those whose right edge is at or left of 0. */
  function OffscreenIndices(s: seq<Pipe>): (r: seq<nat>)
    ensures forall k :: 0 <= k < |r| ==> r[k] < |s|
    ensures |r| >= 2 ==> r[0] < r[1]
  {
    if s == [] then []
    else
      var p := OffscreenIndices(s[..|s| - 1]);
      if Offscreen(s[|s| - 1]) then p + [|s| - 1] else p
  }

  /** The collected indices are exactly the off-screen pipes, in increasing
      order. */
  lemma {:induction false} OffscreenIndicesSound(s: seq<Pipe>)
    ensures var r := OffscreenIndices(s);
      && (forall k :: 0 <= k < |r| ==> Offscreen(s[r[k]]))
      && (forall j, k :: 0 <= j < k < |r| ==> r[j] < r[k])
      && (forall i :: 0 <= i < |s| && Offscreen(s[i]) ==> i in r)
  {
    if s != [] {
      var front := s[..|s| - 1];
      var p, r := OffscreenIndices(front), OffscreenIndices(s);
      OffscreenIndicesSound(front);
      assert r == if Offscreen(s[|s| - 1]) then p + [|s| - 1] else p;
      forall k | 0 <= k < |p|
        ensures r[k] == p[k] && front[p[k]] == s[p[k]]
      {
      }
      forall i | 0 <= i < |s| && Offscreen(s[i])
        ensures i in r
      {
        if i < |s| - 1 {
          assert front[i] == s[i];
        }
      }
    }
  }

  /** Visiting one more pipe appends its index exactly when it is off
      screen. */
  lemma OffscreenIndicesStep(s: seq<Pipe>, i: nat)
    requires i < |s|
    ensures OffscreenIndices(s[..i + 1]) ==
      OffscreenIndices(s[..i]) + (if Offscreen(s[i]) then [i] else [])
  {
    assert s[..i + 1][..i] == s[..i];
  }

  /** A pair is recycled exactly when at least two pipes are off screen. */
  lemma RecycleIffTwoOffscreen(s: seq<Pipe>)
    ensures |OffscreenIndices(s)| >= 2 <==>
      exists i, j :: 0 <= i < j < |s| && Offscreen(s[i]) && Offscreen(s[j])
  {
    var r := OffscreenIndices(s);
    OffscreenIndicesSound(s);
    if |r| >= 2 {
      assert Offscreen(s[r[0]]) && Offscreen(s[r[1]]) && r[0] < r[1];
    }
    if exists i, j :: 0 <= i < j < |s| && Offscreen(s[i]) && Offscreen(s[j]) {
      var i, j :| 0 <= i < j < |s| && Offscreen(s[i]) && Offscreen(s[j]);
      assert i in r && j in r;
      var a :| 0 <= a < |r| && r[a] == i;
      var b :| 0 <= b < |r| && r[b] == j;
      assert a != b;
    }
  }

  /** The pair recyclePipes moves is the first two off-screen pipes in list
      order: every other pipe before the second one is still visible. */
  lemma RecycledAreFirstTwo(s: seq<Pipe>)
    requires |OffscreenIndices(s)| >= 2
    ensures var r := OffscreenIndices(s);
      && r[0] < r[1] < |s|
      && Offscreen(s[r[0]]) && Offscreen(s[r[1]])
      && forall k :: 0 <= k < r[1] && k != r[0] ==> !Offscreen(s[k])
  {
    var r := OffscreenIndices(s);
    OffscreenIndicesSound(s);
    forall k | 0 <= k < r[1] && k != r[0]
      ensures !Offscreen(s[k])
    {
    }
  }
}
