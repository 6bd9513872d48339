/**
 * The shared vertex buffer: every mesh's positions concatenated in draw order,
 * followed by every colour list; the colour attribute bound at the byte
 * offset where the colour block begins; one draw call per mesh over a
 * sub-range of the position block.
 *
 * The offset table is the reference definition, built append-only; the
 * hand-written expressions of the viewer's draw() are proved equal to it.
 */
module Layout {
  import opened Colors
  import opened Grid

  /** Bytes per float in the uploaded buffer. */
  const FloatSize: nat := 4

  datatype Topology = TriangleList | LineList

  /** A range of vertices in the position block. */
  datatype DrawRange = DrawRange(first: nat, count: nat)

  /** The numbers handed to one drawArrays call. The source divides with JavaScript's real division. */
  datatype DrawCall = DrawCall(mode: Topology, first: real, count: real)

  /** How many floats a list of float arrays holds in all. */
  function FloatCount(ms: seq<seq<real>>): nat {
    if ms == [] then 0 else FloatCount(ms[..|ms| - 1]) + |ms[|ms| - 1]|
  }

  /** Float arrays joined in order, as by repeated concat. */
  function Concat(ms: seq<seq<real>>): seq<real> {
    if ms == [] then [] else Concat(ms[..|ms| - 1]) + ms[|ms| - 1]
  }

  /** Two lists of float arrays with pairwise equal lengths. */
  predicate SameShape(a: seq<seq<real>>, b: seq<seq<real>>) {
    |a| == |b| && forall i :: 0 <= i < |a| ==> |a[i]| == |b[i]|
  }

  /** Every array holds whole vertices of three floats. */
  predicate WholeVertices(ms: seq<seq<real>>) {
    forall k :: 0 <= k < |ms| ==> |ms[k]| % 3 == 0
  }

  /** The vertex just past the last range of a table. */
  function End(table: seq<DrawRange>): nat {
    if table == [] then 0 else table[|table| - 1].first + table[|table| - 1].count
  }

  /** The offset table: each mesh's range starts where the previous one ended and spans its own vertices. */
  function OffsetTable(ms: seq<seq<real>>): (table: seq<DrawRange>)
    ensures |table| == |ms|
  {
    if ms == [] then []
    else
      var table := OffsetTable(ms[..|ms| - 1]);
      table + [DrawRange(End(table), |ms[|ms| - 1]| / 3)]
  }

  function AsCall(mode: Topology, r: DrawRange): DrawCall {
    DrawCall(mode, r.first as real, r.count as real)
  }

  // ---------------------------------------------------------------------------
  // The offset table and concatenation

  lemma {:induction false} FloatCountOfWholeVertices(ms: seq<seq<real>>)
    requires WholeVertices(ms)
    ensures FloatCount(ms) % 3 == 0
  {
    if ms != [] {
      FloatCountOfWholeVertices(ms[..|ms| - 1]);
    }
  }

  /** The table ends at the total vertex count. */
  lemma {:induction false} OffsetTableEnd(ms: seq<seq<real>>)
    requires WholeVertices(ms)
    ensures End(OffsetTable(ms)) == FloatCount(ms) / 3
  {
    if ms != [] {
      var init := ms[..|ms| - 1];
      OffsetTableEnd(init);
      FloatCountOfWholeVertices(init);
    }
  }

  /** Mesh k's range starts at the vertex count of the meshes before it and spans its own vertex count. */
  lemma {:induction false} OffsetAt(ms: seq<seq<real>>, k: nat)
    requires WholeVertices(ms) && k < |ms|
    ensures OffsetTable(ms)[k] == DrawRange(FloatCount(ms[..k]) / 3, |ms[k]| / 3)
  {
    var n := |ms| - 1;
    var init := ms[..n];
    if k < n {
      OffsetAt(init, k);
      assert init[..k] == ms[..k];
    } else {
      OffsetTableEnd(init);
    }
  }

  /**
   * The critical invariant of the layout: mesh k's range starts at the vertex
   * count of the meshes before it and spans its own vertex count, and the
   * table ends at the total vertex count.
   */
  lemma OffsetTableStarts(ms: seq<seq<real>>)
    requires WholeVertices(ms)
    ensures forall k :: 0 <= k < |ms| ==> OffsetTable(ms)[k] == DrawRange(FloatCount(ms[..k]) / 3, |ms[k]| / 3)
    ensures End(OffsetTable(ms)) == FloatCount(ms) / 3
  {
    forall k | 0 <= k < |ms|
      ensures OffsetTable(ms)[k] == DrawRange(FloatCount(ms[..k]) / 3, |ms[k]| / 3)
    {
      OffsetAt(ms, k);
    }
    OffsetTableEnd(ms);
  }

  /** Consecutive ranges touch: each ends where the next begins; the first starts at 0. */
  lemma OffsetTableContiguous(ms: seq<seq<real>>, k: nat)
    requires WholeVertices(ms) && k + 1 < |ms|
    ensures OffsetTable(ms)[0].first == 0
    ensures OffsetTable(ms)[k].first + OffsetTable(ms)[k].count == OffsetTable(ms)[k + 1].first
  {
    OffsetAt(ms, 0);
    OffsetAt(ms, k);
    OffsetAt(ms, k + 1);
    assert ms[..k + 1][..k] == ms[..k];
    FloatCountOfWholeVertices(ms[..k]);
    assert ms[..0] == [];
  }

  /** The table depends on the lengths only. */
  lemma {:induction false} SameShapeSameTable(a: seq<seq<real>>, b: seq<seq<real>>)
    requires SameShape(a, b)
    ensures OffsetTable(a) == OffsetTable(b) && FloatCount(a) == FloatCount(b)
  {
    if a != [] {
      var n := |a| - 1;
      SameShapeSameTable(a[..n], b[..n]);
    }
  }

  lemma {:induction false} ConcatLength(ms: seq<seq<real>>)
    ensures |Concat(ms)| == FloatCount(ms)
  {
    if ms != [] {
      ConcatLength(ms[..|ms| - 1]);
    }
  }

  /** Float i of array k sits in the concatenation after all floats of the arrays before it. */
  lemma {:induction false} ConcatAt(ms: seq<seq<real>>, k: nat, i: nat)
    requires k < |ms| && i < |ms[k]|
    ensures FloatCount(ms[..k]) + i < |Concat(ms)|
    ensures Concat(ms)[FloatCount(ms[..k]) + i] == ms[k][i]
  {
    var n := |ms| - 1;
    var init := ms[..n];
    ConcatLength(ms);
    ConcatLength(init);
    if k < n {
      ConcatAt(init, k, i);
      assert init[..k] == ms[..k];
    } else {
      assert ms[..k] == init;
    }
  }

  /** Vertex v of array k is vertex (floats before array k) / 3 + v of the concatenation. */
  lemma ConcatVertexAt(ms: seq<seq<real>>, k: nat, v: nat)
    requires k < |ms| && 3 * v + 3 <= |ms[k]| && FloatCount(ms[..k]) % 3 == 0
    ensures var j := FloatCount(ms[..k]) / 3 + v;
      3 * j + 3 <= |Concat(ms)| &&
      PointAt(Concat(ms), j) == PointAt(ms[k], v) &&
      TripleAt(Concat(ms), j) == TripleAt(ms[k], v)
  {
    var base := FloatCount(ms[..k]);
    var j := base / 3 + v;
    assert 3 * j == base + 3 * v;
    ConcatAt(ms, k, 3 * v);
    ConcatAt(ms, k, 3 * v + 1);
    ConcatAt(ms, k, 3 * v + 2);
  }

  /** Vertex v of array k sits at vertex first(k) + v of the concatenation. */
  lemma VertexAtOffset(ms: seq<seq<real>>, k: nat, v: nat)
    requires WholeVertices(ms)
    requires k < |ms| && 3 * v + 3 <= |ms[k]|
    ensures var j := OffsetTable(ms)[k].first + v;
      3 * j + 3 <= |Concat(ms)| &&
      PointAt(Concat(ms), j) == PointAt(ms[k], v) &&
      TripleAt(Concat(ms), j) == TripleAt(ms[k], v)
  {
    OffsetAt(ms, k);
    FloatCountOfWholeVertices(ms[..k]);
    ConcatVertexAt(ms, k, v);
  }

  /**
   * Two blocks whose arrays have pairwise equal lengths line up vertex for
   * vertex: vertex v of array k sits at vertex first(k) + v of either block.
   */
  lemma BlocksLineUp(positions: seq<seq<real>>, colors: seq<seq<real>>, k: nat, v: nat)
    requires SameShape(positions, colors)
    requires WholeVertices(positions)
    requires k < |positions| && 3 * v + 3 <= |positions[k]|
    ensures var j := OffsetTable(positions)[k].first + v;
      3 * j + 3 <= |Concat(positions)| && 3 * j + 3 <= |Concat(colors)| &&
      PointAt(Concat(positions), j) == PointAt(positions[k], v) &&
      TripleAt(Concat(colors), j) == TripleAt(colors[k], v)
  {
    SameShapeSameTable(positions, colors);
    VertexAtOffset(positions, k, v);
    VertexAtOffset(colors, k, v);
  }

  /** A float count of q whole vertices, divided by 3 over the reals, is q. */
  lemma ExactThird(x: nat, q: nat)
    requires x == 3 * q
    ensures x as real / 3.0 == q as real && x / 3 == q
  {
  }

  /** A count of whole triangles is a count of whole vertices. */
  lemma WholeTriangles(x: nat)
    requires x % 9 == 0
    ensures x == 3 * (x / 3) && x % 3 == 0
  {
    var q := x / 9;
    assert x == 9 * q;
    assert x / 3 == 3 * q;
  }

  // ---------------------------------------------------------------------------
  // The viewer's scene (project1.js)

  /**
   * The meshes as the viewer holds them. The three cats are one aliased list
   * and so are the two wings, so each appears once here.
   */
  datatype Meshes = Meshes(bottle: seq<real>, cat: seq<real>, heart: seq<real>, wing: seq<real>, grid: seq<real>)

  /** Triangle meshes hold whole triangles (9 floats); the grid holds whole vertices. */
  predicate WellFormed(m: Meshes) {
    |m.bottle| % 9 == 0 && |m.cat| % 9 == 0 && |m.heart| % 9 == 0 && |m.wing| % 9 == 0 && |m.grid| % 3 == 0
  }

  /** The concatenation order of positions, which is also the draw order. */
  function DrawOrder(m: Meshes): seq<seq<real>> {
    [m.bottle, m.cat, m.cat, m.cat, m.heart, m.wing, m.wing, m.grid]
  }

  function PositionBlock(m: Meshes): seq<real> {
    Concat(DrawOrder(m))
  }

  const BottleFlags := ColorFlags(true, 0, false)
  const Cat1Flags := ColorFlags(false, 1, false)
  const Cat2Flags := ColorFlags(false, 2, false)
  const Cat3Flags := ColorFlags(false, 3, false)
  const HeartFlags := ColorFlags(false, 0, true)
  const GridGreen := Rgb(0.0, 1.0, 0.0)

  /** Enough random draws for the calico cat's colour list. */
  predicate CalicoDraws(m: Meshes, draws: seq<real>) {
    DrawsSuffice(|m.cat| / 3, Calico, draws)
  }

  /**
   * The colour lists in upload order. There is one wing list, built for
   * 2 * wing.length / 3 vertices, serving both wings.
   */
  function ColorLists(m: Meshes, draws: seq<real>): seq<seq<real>>
    requires CalicoDraws(m, draws)
  {
    [ ColorList(|m.bottle| / 3, PolicyOf(BottleFlags), []),
      ColorList(|m.cat| / 3, PolicyOf(Cat1Flags), []),
      ColorList(|m.cat| / 3, PolicyOf(Cat2Flags), draws),
      ColorList(|m.cat| / 3, PolicyOf(Cat3Flags), []),
      ColorList(|m.heart| / 3, PolicyOf(HeartFlags), []),
      ColorList(|m.wing| * 2 / 3, PolicyOf(Cat1Flags), []),
      Repeat(GridGreen, |m.grid| / 3) ]
  }

  function ColorBlock(m: Meshes, draws: seq<real>): seq<real>
    requires CalicoDraws(m, draws)
  {
    Concat(ColorLists(m, draws))
  }

  /** The colours each drawn mesh actually reads: the wing list split in two halves. */
  function MeshColors(m: Meshes, draws: seq<real>): seq<seq<real>>
    requires CalicoDraws(m, draws) && |m.wing| % 9 == 0
  {
    var lists := ColorLists(m, draws);
    ColorListLength(|m.wing| * 2 / 3, Grey, []);
    [lists[0], lists[1], lists[2], lists[3], lists[4], lists[5][..|m.wing|], lists[5][|m.wing|..], lists[6]]
  }

  /** A colour list built for a mesh of whole triangles has one float per position float. */
  lemma ColorListFits(floats: nat, p: Policy, draws: seq<real>)
    requires floats % 9 == 0 && p != Unpainted && DrawsSuffice(floats / 3, p, draws)
    ensures |ColorList(floats / 3, p, draws)| == floats
  {
    var q := floats / 9;
    assert floats / 3 == 3 * q;
    ColorListLength(floats / 3, p, draws);
  }

  /** The colour lists in upload order, each as long as the positions it colours; the wing list covers both wings. */
  lemma ColorListsFit(m: Meshes, draws: seq<real>)
    requires WellFormed(m) && CalicoDraws(m, draws)
    ensures var lists := ColorLists(m, draws);
      |lists[0]| == |m.bottle| && |lists[1]| == |m.cat| && |lists[2]| == |m.cat| && |lists[3]| == |m.cat| &&
      |lists[4]| == |m.heart| && |lists[5]| == 2 * |m.wing| && |lists[6]| == |m.grid|
  {
    assert PolicyOf(BottleFlags) == SolidRed && PolicyOf(Cat1Flags) == Grey && PolicyOf(Cat2Flags) == Calico;
    assert PolicyOf(Cat3Flags) == Warm && PolicyOf(HeartFlags) == Rosy;
    ColorListFits(|m.bottle|, SolidRed, []);
    ColorListFits(|m.cat|, Grey, []);
    ColorListFits(|m.cat|, Calico, draws);
    ColorListFits(|m.cat|, Warm, []);
    ColorListFits(|m.heart|, Rosy, []);
    DoubledWhole(|m.wing|);
    ColorListFits(|m.wing| * 2, Grey, []);
    RepeatAt(GridGreen, |m.grid| / 3);
  }

  lemma DoubledWhole(x: nat)
    requires x % 9 == 0
    ensures (x * 2) % 9 == 0
  {
    var q := x / 9;
    assert x * 2 == 9 * (2 * q);
  }

  /** Every drawn mesh reads exactly as many colour floats as it has position floats. */
  lemma ColorListsMatchMeshes(m: Meshes, draws: seq<real>)
    requires WellFormed(m) && CalicoDraws(m, draws)
    ensures SameShape(DrawOrder(m), MeshColors(m, draws))
  {
    ColorListsFit(m, draws);
    var lists := ColorLists(m, draws);
    var mc := MeshColors(m, draws);
    assert |mc[5]| == |m.wing| && |mc[6]| == |m.wing| && |mc[7]| == |m.grid|;
  }

  /** Splitting the wing list into its two halves leaves the colour block unchanged. */
  lemma SplitJoin(s: seq<real>, n: nat)
    requires n <= |s|
    ensures s[..n] + s[n..] == s
  {
  }

  lemma ColorBlockSplitsWing(m: Meshes, draws: seq<real>)
    requires WellFormed(m) && CalicoDraws(m, draws)
    ensures Concat(MeshColors(m, draws)) == ColorBlock(m, draws)
  {
    var lists := ColorLists(m, draws);
    var mc := MeshColors(m, draws);
    var front := lists[0] + lists[1] + lists[2] + lists[3] + lists[4];
    var wing := lists[5];
    assert Concat(mc) == front + mc[5] + mc[6] + lists[6] by {
      ConcatOfEight(mc);
    }
    assert Concat(lists) == front + wing + lists[6] by {
      ConcatOfSeven(lists);
    }
    assert front + mc[5] + mc[6] == front + wing by {
      AppendAssoc(front, mc[5], mc[6]);
      ColorListsFit(m, draws);
      SplitJoin(wing, |m.wing|);
    }
  }

  /** The colour block is exactly as long as the position block. */
  lemma ColorBlockMatchesPositions(m: Meshes, draws: seq<real>)
    requires WellFormed(m) && CalicoDraws(m, draws)
    ensures |ColorBlock(m, draws)| == |PositionBlock(m)|
  {
    ColorListsFit(m, draws);
    ConcatOfSeven(ColorLists(m, draws));
    ConcatOfEight(DrawOrder(m));
  }

  /** Vertex v of drawn mesh k sits at vertex first(k) + v of the position block. */
  lemma PositionLinesUp(m: Meshes, k: nat, v: nat)
    requires WellFormed(m)
    requires k < 8 && 3 * v + 3 <= |DrawOrder(m)[k]|
    ensures var j := OffsetTable(DrawOrder(m))[k].first + v;
      3 * j + 3 <= |PositionBlock(m)| && PointAt(PositionBlock(m), j) == PointAt(DrawOrder(m)[k], v)
  {
    DrawOrderWhole(m);
    VertexAtOffset(DrawOrder(m), k, v);
  }

  /**
   * The colour of vertex v of drawn mesh k sits at vertex first(k) + v of the
   * colour block, the same vertex index as its position.
   */
  lemma ColorLinesUp(m: Meshes, draws: seq<real>, k: nat, v: nat)
    requires WellFormed(m) && CalicoDraws(m, draws)
    requires k < 8 && 3 * v + 3 <= |DrawOrder(m)[k]|
    ensures SameShape(DrawOrder(m), MeshColors(m, draws))
    ensures var j := OffsetTable(DrawOrder(m))[k].first + v;
      3 * j + 3 <= |ColorBlock(m, draws)| && TripleAt(ColorBlock(m, draws), j) == TripleAt(MeshColors(m, draws)[k], v)
  {
    var ps, cs := DrawOrder(m), MeshColors(m, draws);
    ColorListsMatchMeshes(m, draws);
    DrawOrderWhole(m);
    BlocksLineUp(ps, cs, k, v);
    ColorBlockSplitsWing(m, draws);
  }

  /** Each drawn mesh holds whole vertices. */
  lemma DrawOrderWhole(m: Meshes)
    requires WellFormed(m)
    ensures WholeVertices(DrawOrder(m))
  {
    WholeTriangles(|m.bottle|); WholeTriangles(|m.cat|); WholeTriangles(|m.heart|); WholeTriangles(|m.wing|);
    var ms := DrawOrder(m);
    forall k | 0 <= k < |ms|
      ensures |ms[k]| % 3 == 0
    {
      assert ms[k] in [m.bottle, m.cat, m.heart, m.wing, m.grid];
    }
  }

  /** The draw() calls of the viewer, with the offsets as the source spells them out. */
  function Project1DrawCalls(b: nat, c1: nat, c2: nat, c3: nat, h: nat, w1: nat, w2: nat, g: nat): seq<DrawCall> {
    [ DrawCall(TriangleList, 0.0, b as real / 3.0),
      DrawCall(TriangleList, b as real / 3.0, c1 as real / 3.0),
      DrawCall(TriangleList, (b + c1) as real / 3.0, c2 as real / 3.0),
      DrawCall(TriangleList, (b + c1 + c2) as real / 3.0, c3 as real / 3.0),
      DrawCall(TriangleList, (b + c1 + c2 + c3) as real / 3.0, h as real / 3.0),
      DrawCall(TriangleList, (b + c1 + c2 + c3 + h) as real / 3.0, w1 as real / 3.0),
      DrawCall(TriangleList, (b + c1 + c2 + c3 + h + w1) as real / 3.0, w2 as real / 3.0),
      DrawCall(LineList, (b + c1 + c2 + c3 + h + w1 + w2) as real / 3.0, g as real / 3.0) ]
  }

  function Draw(m: Meshes): seq<DrawCall> {
    Project1DrawCalls(|m.bottle|, |m.cat|, |m.cat|, |m.cat|, |m.heart|, |m.wing|, |m.wing|, |m.grid|)
  }

  /** Topology of each draw call: triangles for the models, lines for the grid. */
  const Project1Modes := [TriangleList, TriangleList, TriangleList, TriangleList, TriangleList, TriangleList, TriangleList, LineList]

  lemma FloatCountStep(ms: seq<seq<real>>, k: nat)
    requires k < |ms|
    ensures FloatCount(ms[..k + 1]) == FloatCount(ms[..k]) + |ms[k]|
  {
    assert ms[..k + 1][..k] == ms[..k];
  }

  lemma FloatCountOfEight(ms: seq<seq<real>>)
    requires |ms| == 8
    ensures FloatCount(ms[..0]) == 0
    ensures FloatCount(ms[..1]) == |ms[0]|
    ensures FloatCount(ms[..2]) == |ms[0]| + |ms[1]|
    ensures FloatCount(ms[..3]) == |ms[0]| + |ms[1]| + |ms[2]|
    ensures FloatCount(ms[..4]) == |ms[0]| + |ms[1]| + |ms[2]| + |ms[3]|
    ensures FloatCount(ms[..5]) == |ms[0]| + |ms[1]| + |ms[2]| + |ms[3]| + |ms[4]|
    ensures FloatCount(ms[..6]) == |ms[0]| + |ms[1]| + |ms[2]| + |ms[3]| + |ms[4]| + |ms[5]|
    ensures FloatCount(ms[..7]) == |ms[0]| + |ms[1]| + |ms[2]| + |ms[3]| + |ms[4]| + |ms[5]| + |ms[6]|
  {
    assert ms[..0] == [];
    FloatCountStep(ms, 0);
    FloatCountStep(ms, 1);
    FloatCountStep(ms, 2);
    FloatCountStep(ms, 3);
    FloatCountStep(ms, 4);
    FloatCountStep(ms, 5);
    FloatCountStep(ms, 6);
  }

  /** The viewer's eight ranges, in vertices: three cats of C, two wings of W. */
  function Project1Ranges(B: nat, C: nat, H: nat, W: nat, G: nat): seq<DrawRange> {
    [ DrawRange(0, B), DrawRange(B, C), DrawRange(B + C, C), DrawRange(B + C + C, C),
      DrawRange(B + C + C + C, H), DrawRange(B + C + C + C + H, W),
      DrawRange(B + C + C + C + H + W, W), DrawRange(B + C + C + C + H + W + W, G) ]
  }

  /** The ranges of the bottle and the three cats. */
  lemma Project1FrontRanges(m: Meshes)
    requires WellFormed(m)
    ensures var t, r := OffsetTable(DrawOrder(m)), Project1Ranges(|m.bottle| / 3, |m.cat| / 3, |m.heart| / 3, |m.wing| / 3, |m.grid| / 3);
      t[0] == r[0] && t[1] == r[1] && t[2] == r[2] && t[3] == r[3]
  {
    DrawOrderWhole(m);
    var ls := DrawOrder(m);
    var b, c := |m.bottle|, |m.cat|;
    var B, C := b / 3, c / 3;
    WholeTriangles(b); WholeTriangles(c);
    var t := OffsetTable(ls);
    assert t[0] == DrawRange(0, B) && t[1] == DrawRange(B, C) by {
      OffsetAt(ls, 0);
      OffsetAt(ls, 1);
      FloatCountOfEight(ls);
    }
    assert t[2] == DrawRange(B + C, C) && t[3] == DrawRange(B + C + C, C) by {
      OffsetAt(ls, 2);
      OffsetAt(ls, 3);
      FloatCountOfEight(ls);
      ExactThird(b + c, B + C);
      ExactThird(b + c + c, B + C + C);
    }
  }

  /** The ranges of the heart, the two wings and the grid. */
  lemma Project1BackRanges(m: Meshes)
    requires WellFormed(m)
    ensures var t, r := OffsetTable(DrawOrder(m)), Project1Ranges(|m.bottle| / 3, |m.cat| / 3, |m.heart| / 3, |m.wing| / 3, |m.grid| / 3);
      t[4] == r[4] && t[5] == r[5] && t[6] == r[6] && t[7] == r[7]
  {
    DrawOrderWhole(m);
    var ls := DrawOrder(m);
    var b, c, h, w, g := |m.bottle|, |m.cat|, |m.heart|, |m.wing|, |m.grid|;
    var B, C, H, W, G := b / 3, c / 3, h / 3, w / 3, g / 3;
    WholeTriangles(b); WholeTriangles(c); WholeTriangles(h); WholeTriangles(w);
    var t := OffsetTable(ls);
    assert t[4] == DrawRange(B + C + C + C, H) && t[5] == DrawRange(B + C + C + C + H, W) by {
      OffsetAt(ls, 4);
      OffsetAt(ls, 5);
      FloatCountOfEight(ls);
      ExactThird(b + c + c + c, B + C + C + C);
      ExactThird(b + c + c + c + h, B + C + C + C + H);
    }
    assert t[6] == DrawRange(B + C + C + C + H + W, W) && t[7] == DrawRange(B + C + C + C + H + W + W, G) by {
      OffsetAt(ls, 6);
      OffsetAt(ls, 7);
      FloatCountOfEight(ls);
      ExactThird(b + c + c + c + h + w, B + C + C + C + H + W);
      ExactThird(b + c + c + c + h + w + w, B + C + C + C + H + W + W);
    }
  }

  /** The offset table of the draw order, written out mesh by mesh. */
  lemma Project1OffsetTable(m: Meshes)
    requires WellFormed(m)
    ensures OffsetTable(DrawOrder(m)) == Project1Ranges(|m.bottle| / 3, |m.cat| / 3, |m.heart| / 3, |m.wing| / 3, |m.grid| / 3)
  {
    Project1FrontRanges(m);
    Project1BackRanges(m);
  }

  /**
   * For whole-triangle model lengths and a whole-vertex grid length, each
   * draw() expression, computed with real division, is the matching range.
   */
  lemma DrawCallsMatchRanges(b: nat, c: nat, h: nat, w: nat, g: nat)
    requires b % 9 == 0 && c % 9 == 0 && h % 9 == 0 && w % 9 == 0 && g % 3 == 0
    ensures var d, t := Project1DrawCalls(b, c, c, c, h, w, w, g), Project1Ranges(b / 3, c / 3, h / 3, w / 3, g / 3);
      |d| == 8 && forall k :: 0 <= k < 8 ==> d[k] == AsCall(Project1Modes[k], t[k])
    ensures var d := Project1DrawCalls(b, c, c, c, h, w, w, g);
      d[7].first + d[7].count == ((b + c + c + c + h + w + w + g) / 3) as real
  {
    var B, C, H, W, G := b / 3, c / 3, h / 3, w / 3, g / 3;
    WholeTriangles(b); WholeTriangles(c); WholeTriangles(h); WholeTriangles(w);
    var t := Project1Ranges(B, C, H, W, G);
    var d := Project1DrawCalls(b, c, c, c, h, w, w, g);
    assert d[0] == AsCall(TriangleList, t[0]) by { ExactThird(b, B); }
    assert d[1] == AsCall(TriangleList, t[1]) by { ExactThird(b, B); ExactThird(c, C); }
    assert d[2] == AsCall(TriangleList, t[2]) by { ExactThird(b + c, B + C); ExactThird(c, C); }
    assert d[3] == AsCall(TriangleList, t[3]) by { ExactThird(b + c + c, B + C + C); ExactThird(c, C); }
    assert d[4] == AsCall(TriangleList, t[4]) by { ExactThird(b + c + c + c, B + C + C + C); ExactThird(h, H); }
    assert d[5] == AsCall(TriangleList, t[5]) by { ExactThird(b + c + c + c + h, B + C + C + C + H); ExactThird(w, W); }
    assert d[6] == AsCall(TriangleList, t[6]) by { ExactThird(b + c + c + c + h + w, B + C + C + C + H + W); ExactThird(w, W); }
    assert d[7] == AsCall(LineList, t[7]) by { ExactThird(b + c + c + c + h + w + w, B + C + C + C + H + W + W); ExactThird(g, G); }
    ExactThird(b + c + c + c + h + w + w + g, B + C + C + C + H + W + W + G);
  }

  /**
   * The eight hand-written drawArrays ranges are exactly the offset table of
   * the concatenation order; the grid's range ends at the total vertex count.
   */
  lemma DrawMatchesOffsetTable(m: Meshes)
    requires WellFormed(m)
    ensures |Draw(m)| == 8 && WholeVertices(DrawOrder(m))
    ensures forall k :: 0 <= k < 8 ==> Draw(m)[k] == AsCall(Project1Modes[k], OffsetTable(DrawOrder(m))[k])
    ensures Draw(m)[7].first + Draw(m)[7].count == (|PositionBlock(m)| / 3) as real
  {
    var b, c, h, w, g := |m.bottle|, |m.cat|, |m.heart|, |m.wing|, |m.grid|;
    DrawOrderWhole(m);
    Project1OffsetTable(m);
    DrawCallsMatchRanges(b, c, h, w, g);
    assert |PositionBlock(m)| == b + c + c + c + h + w + w + g by {
      ConcatOfEight(DrawOrder(m));
    }
  }

  /** The byte offset of the colour attribute, as the source spells it out. */
  function Project1ColorOffset(b: nat, c1: nat, c2: nat, c3: nat, h: nat, w1: nat, w2: nat, g: nat): nat {
    (b + c1 + c2 + c3 + h + w1 + w2 + g) * FloatSize
  }

  /**
   * startRendering: builds the grid and the seven colour lists, concatenates
   * positions then colours into one upload, and computes the colour byte
   * offset. `draws` stands for Math.random during the calico cat's build.
   */
  method StartRendering(bottle: seq<real>, cat: seq<real>, heart: seq<real>, wing: seq<real>, draws: seq<real>)
    returns (data: seq<real>, gridMesh: seq<real>, colorByteOffset: nat)
    requires |bottle| % 9 == 0 && |cat| % 9 == 0 && |heart| % 9 == 0 && |wing| % 9 == 0
    requires DrawsSuffice(|cat| / 3, Calico, draws)
    ensures gridMesh == GridMesh(1, 1)
    ensures WellFormed(Meshes(bottle, cat, heart, wing, gridMesh))
    ensures data == PositionBlock(Meshes(bottle, cat, heart, wing, gridMesh)) + ColorBlock(Meshes(bottle, cat, heart, wing, gridMesh), draws)
    ensures |ColorBlock(Meshes(bottle, cat, heart, wing, gridMesh), draws)| == |PositionBlock(Meshes(bottle, cat, heart, wing, gridMesh))|
    ensures colorByteOffset == FloatSize * |PositionBlock(Meshes(bottle, cat, heart, wing, gridMesh))|
    ensures data[colorByteOffset / FloatSize..] == ColorBlock(Meshes(bottle, cat, heart, wing, gridMesh), draws)
  {
    var gridColors;
    gridMesh, gridColors := BuildGridAttributes(1, 1, Rgb(0.0, 1.0, 0.0));
    var bottleColors := BuildColorAttributes(|bottle| / 3, ColorFlags(true, 0, false), []);
    var cat1Colors := BuildColorAttributes(|cat| / 3, ColorFlags(false, 1, false), []);
    var cat2Colors := BuildColorAttributes(|cat| / 3, ColorFlags(false, 2, false), draws);
    var cat3Colors := BuildColorAttributes(|cat| / 3, ColorFlags(false, 3, false), []);
    var heartColors := BuildColorAttributes(|heart| / 3, ColorFlags(false, 0, true), []);
    var wingColors := BuildColorAttributes(|wing| * 2 / 3, ColorFlags(false, 1, false), []);
    data := bottle + cat + cat + cat + heart + wing + wing + gridMesh
      + bottleColors + cat1Colors + cat2Colors + cat3Colors + heartColors + wingColors + gridColors;
    colorByteOffset := Project1ColorOffset(|bottle|, |cat|, |cat|, |cat|, |heart|, |wing|, |wing|, |gridMesh|);

    var m := Meshes(bottle, cat, heart, wing, gridMesh);
    assert WellFormed(m);
    assert data == PositionBlock(m) + ColorBlock(m, draws) by {
      var positions := bottle + cat + cat + cat + heart + wing + wing + gridMesh;
      assert positions == PositionBlock(m) by {
        ConcatOfEight(DrawOrder(m));
      }
      assert ColorLists(m, draws) == [bottleColors, cat1Colors, cat2Colors, cat3Colors, heartColors, wingColors, gridColors];
      ConcatOfSeven(ColorLists(m, draws));
      JoinBlocks(positions, bottleColors, cat1Colors, cat2Colors, cat3Colors, heartColors, wingColors, gridColors);
    }
    assert |PositionBlock(m)| == |bottle| + |cat| + |cat| + |cat| + |heart| + |wing| + |wing| + |gridMesh| by {
      ConcatOfEight(DrawOrder(m));
    }
    assert FloatSize == 4;
    assert colorByteOffset == 4 * |PositionBlock(m)|;
    assert colorByteOffset / FloatSize == |PositionBlock(m)|;
    ColorBlockMatchesPositions(m, draws);
    DropPrefix(PositionBlock(m), ColorBlock(m, draws));
  }

  /** Appending seven lists one at a time appends their concatenation. */
  lemma JoinBlocks(p: seq<real>, c1: seq<real>, c2: seq<real>, c3: seq<real>, c4: seq<real>, c5: seq<real>, c6: seq<real>, c7: seq<real>)
    ensures p + c1 + c2 + c3 + c4 + c5 + c6 + c7 == p + (c1 + c2 + c3 + c4 + c5 + c6 + c7)
  {
    AppendAssoc(p, c1, c2);
    AppendAssoc(p, c1 + c2, c3);
    AppendAssoc(p, c1 + c2 + c3, c4);
    AppendAssoc(p, c1 + c2 + c3 + c4, c5);
    AppendAssoc(p, c1 + c2 + c3 + c4 + c5, c6);
    AppendAssoc(p, c1 + c2 + c3 + c4 + c5 + c6, c7);
  }

  lemma DropPrefix(a: seq<real>, b: seq<real>)
    ensures (a + b)[|a|..] == b
  {
  }

  lemma ConcatStep(ms: seq<seq<real>>, k: nat)
    requires k < |ms|
    ensures Concat(ms[..k + 1]) == Concat(ms[..k]) + ms[k]
  {
    assert ms[..k + 1][..k] == ms[..k];
  }

  lemma ConcatOfSeven(ms: seq<seq<real>>)
    requires |ms| == 7
    ensures Concat(ms) == ms[0] + ms[1] + ms[2] + ms[3] + ms[4] + ms[5] + ms[6]
  {
    assert ms[..0] == [];
    ConcatStep(ms, 0);
    assert Concat(ms[..1]) == ms[0];
    ConcatStep(ms, 1);
    assert Concat(ms[..2]) == ms[0] + ms[1];
    ConcatStep(ms, 2);
    assert Concat(ms[..3]) == ms[0] + ms[1] + ms[2];
    ConcatStep(ms, 3);
    assert Concat(ms[..4]) == ms[0] + ms[1] + ms[2] + ms[3];
    ConcatStep(ms, 4);
    assert Concat(ms[..5]) == ms[0] + ms[1] + ms[2] + ms[3] + ms[4];
    ConcatStep(ms, 5);
    assert Concat(ms[..6]) == ms[0] + ms[1] + ms[2] + ms[3] + ms[4] + ms[5];
    ConcatStep(ms, 6);
    assert ms[..7] == ms;
  }

  lemma ConcatOfEight(ms: seq<seq<real>>)
    requires |ms| == 8
    ensures Concat(ms) == ms[0] + ms[1] + ms[2] + ms[3] + ms[4] + ms[5] + ms[6] + ms[7]
  {
    ConcatOfSeven(ms[..7]);
    ConcatStep(ms, 7);
    assert ms[..8] == ms;
  }

  // ---------------------------------------------------------------------------
  // The starter (project1starter.js): one bottle and the grid

  function StarterDrawCalls(b: nat, g: nat): seq<DrawCall> {
    [ DrawCall(TriangleList, 0.0, b as real / 3.0),
      DrawCall(LineList, b as real / 3.0, g as real / 3.0) ]
  }

  /** The bottle spans [0, b/3), the grid [b/3, b/3 + g/3): the offset table of [bottle, grid]. */
  lemma StarterDrawMatchesOffsetTable(bottle: seq<real>, grid: seq<real>)
    requires |bottle| % 3 == 0 && |grid| % 3 == 0
    ensures StarterDrawCalls(|bottle|, |grid|)
         == [AsCall(TriangleList, OffsetTable([bottle, grid])[0]), AsCall(LineList, OffsetTable([bottle, grid])[1])]
    ensures StarterDrawCalls(|bottle|, |grid|)[1].first + StarterDrawCalls(|bottle|, |grid|)[1].count
         == ((|bottle| + |grid|) / 3) as real
  {
    var b, g := |bottle|, |grid|;
    var ms := [bottle, grid];
    OffsetAt(ms, 0);
    OffsetAt(ms, 1);
    assert ms[..0] == [] && ms[..1] == [bottle];
    ExactThird(b, b / 3); ExactThird(g, g / 3); ExactThird(b + g, b / 3 + g / 3);
  }

  /**
   * The starter's startRendering: positions of bottle and grid, then their
   * colours; the colour offset (bottle.length + grid.length) * 4 is the byte
   * index where the bottle's colours begin, and the colours line up with
   * the positions.
   */
  method StarterStartRendering(bottle: seq<real>)
    returns (data: seq<real>, gridMesh: seq<real>, colorByteOffset: nat)
    requires |bottle| % 9 == 0
    ensures gridMesh == GridMesh(1, 1)
    ensures data == bottle + gridMesh + ColorList(|bottle| / 3, BlueGradient, []) + Repeat(GridGreen, |gridMesh| / 3)
    ensures colorByteOffset == FloatSize * (|bottle| + |gridMesh|)
    ensures data[colorByteOffset / FloatSize..] == ColorList(|bottle| / 3, BlueGradient, []) + Repeat(GridGreen, |gridMesh| / 3)
    ensures SameShape([bottle, gridMesh], [ColorList(|bottle| / 3, BlueGradient, []), Repeat(GridGreen, |gridMesh| / 3)])
  {
    var gridColors;
    gridMesh, gridColors := BuildGridAttributes(1, 1, Rgb(0.0, 1.0, 0.0));
    var bottleColors := BuildBlueGradient(|bottle| / 3);
    data := bottle + gridMesh + bottleColors + gridColors;
    colorByteOffset := (|bottle| + |gridMesh|) * FloatSize;
    assert |bottleColors| == |bottle| by {
      ColorListFits(|bottle|, BlueGradient, []);
    }
    assert colorByteOffset / FloatSize == |bottle + gridMesh|;
    DropPrefix(bottle + gridMesh, bottleColors + gridColors);
  }
}
