/** The floor grid loop shared by both scene scripts: for i from -lines in
    steps of `step` while i <= lines, append a piece along x at z = i and a
    piece along z at x = i, each spanning the whole extent [-lines, lines]. */
module Grid {
  import opened Scene

  /** The four vertices one pass of the loop appends for position `i`:
      (-lines, 0, i), (lines, 0, i), (i, 0, -lines), (i, 0, lines). */
  function Row(i: int, lines: int): seq<Vec3>
  {
    [ Vec3(-(lines as real), 0.0, i as real), Vec3(lines as real, 0.0, i as real),
      Vec3(i as real, 0.0, -(lines as real)), Vec3(i as real, 0.0, lines as real) ]
  }

  /** On the floor plane y = 0, with x and z within [-lines, lines]. */
  predicate OnFloor(v: Vec3, lines: int)
  {
    && v.y == 0.0
    && -(lines as real) <= v.x <= lines as real
    && -(lines as real) <= v.z <= lines as real
  }

  /** The vertices the loop appends when its variable starts at `i`. */
  function GridFrom(i: int, lines: int, step: int): (r: seq<Vec3>)
    requires step > 0 || i > lines
    ensures |r| % 4 == 0
    ensures |r| == 0 <==> i > lines
    ensures -lines <= i ==> forall v :: v in r ==> OnFloor(v, lines)
    decreases if i <= lines then lines - i + 1 else 0
  {
    if i > lines then [] else Row(i, lines) + GridFrom(i + step, lines, step)
  }

  /** The whole grid: the loop variable starts at -lines. */
  function GridVertices(lines: int, step: int): seq<Vec3>
    requires step > 0 || lines < 0
  {
    GridFrom(-lines, lines, step)
  }

  /** Quotient and remainder are unique. */
  lemma DivUnique(d: int, step: int, q: int, m: int)
    requires 0 < step && 0 <= m < step && d == step * q + m
    ensures d / step == q
  {
    var q', m' := d / step, d % step;
    assert d == step * q' + m' && 0 <= m' < step;
    assert step * (q - q') == m' - m;
    if q - q' >= 1 {
      assert false;
    } else if q' - q >= 1 {
      assert false;
    }
  }

  /** Division by a positive step peels off one step at a time. */
  lemma DivByStep(d: int, step: int)
    requires 0 <= d && 0 < step
    ensures d < step ==> d / step == 0
    ensures step <= d ==> d / step == (d - step) / step + 1
  {
    if d < step {
      DivUnique(d, step, 0, d);
    } else {
      var q, m := (d - step) / step, (d - step) % step;
      assert d == step * (q + 1) + m;
      DivUnique(d, step, q + 1, m);
    }
  }

  /** The loop makes floor((lines - i) / step) + 1 passes, four vertices each. */
  lemma {:induction false} GridFromCount(i: int, lines: int, step: int)
    requires step > 0
    ensures |GridFrom(i, lines, step)| == if i > lines then 0 else 4 * ((lines - i) / step + 1)
    decreases if i <= lines then lines - i + 1 else 0
  {
    if i <= lines {
      GridFromCount(i + step, lines, step);
      DivByStep(lines - i, step);
    }
  }

  /** A grid over [-lines, lines] holds 4 * (floor(2 * lines / step) + 1) vertices. */
  lemma GridVerticesCount(lines: int, step: int)
    requires step > 0
    ensures |GridVertices(lines, step)| == if lines < 0 then 0 else 4 * ((2 * lines) / step + 1)
  {
    GridFromCount(-lines, lines, step);
  }

  /** Pass k of the loop runs with i = start + k * step and appends exactly Row(i). */
  lemma {:induction false} GridFromRow(i: int, lines: int, step: int, k: nat)
    requires step > 0 && i + k * step <= lines
    ensures 4 * k + 4 <= |GridFrom(i, lines, step)|
    ensures GridFrom(i, lines, step)[4 * k .. 4 * k + 4] == Row(i + k * step, lines)
    decreases k
  {
    assert i <= lines by {
      assert 0 <= k * step;
    }
    var rest := GridFrom(i + step, lines, step);
    assert GridFrom(i, lines, step) == Row(i, lines) + rest;
    if k > 0 {
      assert (i + step) + (k - 1) * step == i + k * step;
      GridFromRow(i + step, lines, step, k - 1);
      assert (Row(i, lines) + rest)[4 * k .. 4 * k + 4] == rest[4 * (k - 1) .. 4 * (k - 1) + 4];
    }
  }

  /** The loop itself: appends the grid to `geometry`, four pushes per pass. */
  method AppendGrid(geometry: Geometry, lines: int, step: int)
    requires step > 0 || lines < 0
    modifies geometry
    ensures geometry.vertices == old(geometry.vertices) + GridVertices(lines, step)
    ensures geometry.faces == old(geometry.faces)
  {
    var i := -lines;
    while i <= lines
      invariant step > 0 || i > lines
      invariant -lines <= i
      invariant geometry.vertices + GridFrom(i, lines, step)
             == old(geometry.vertices) + GridFrom(-lines, lines, step)
      invariant geometry.faces == old(geometry.faces)
      decreases lines - i
    {
      ghost var before := geometry.vertices;
      geometry.PushVertex(Vec3(-(lines as real), 0.0, i as real));
      geometry.PushVertex(Vec3(lines as real, 0.0, i as real));
      geometry.PushVertex(Vec3(i as real, 0.0, -(lines as real)));
      geometry.PushVertex(Vec3(i as real, 0.0, lines as real));
      assert geometry.vertices == before + Row(i, lines);
      assert GridFrom(i, lines, step) == Row(i, lines) + GridFrom(i + step, lines, step);
      assert geometry.vertices + GridFrom(i + step, lines, step) == before + GridFrom(i, lines, step);
      i := i + step;
    }
  }
}
