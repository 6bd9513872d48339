/**
 * Per-vertex colour attributes (buildColorAttributes).
 *
 * Both versions of the builder loop over the triangles of a mesh and push one
 * RGB triple per vertex into a flat float list. The full version picks a
 * colouring policy from three flag parameters with a fixed priority; the starter
 * version has a single blue gradient. Colours are exact reals here.
 */
module Colors {

  /** An RGB colour. */
  datatype Rgb = Rgb(r: real, g: real, b: real) {
    /** The three floats pushed for one vertex, in r, g, b order. */
    function Floats(): seq<real> { [r, g, b] }

    predicate InUnitCube() {
      0.0 <= r <= 1.0 && 0.0 <= g <= 1.0 && 0.0 <= b <= 1.0
    }
  }

  /** The palette of the calico cat. */
  const White := Rgb(1.0, 1.0, 1.0)
  const Black := Rgb(0.1, 0.1, 0.1)
  const Orange := Rgb(1.0, 0.5, 0.2)

  /** The flag parameters of the full builder, which have defaults (isBottle, cat, isHeart). */
  datatype ColorFlags = ColorFlags(isBottle: bool, cat: int, isHeart: bool)

  /** The colouring policy a call ends up applying to every vertex. */
  datatype Policy =
    | SolidRed      // isBottle
    | Grey          // cat == 1: (shade, shade, shade)
    | Calico        // cat == 2: a random palette colour per vertex
    | Warm          // cat == 3: a warm gradient
    | Rosy          // isHeart
    | Unpainted     // no flag applies: nothing is pushed
    | BlueGradient  // the starter's only policy: (shade, shade, 1.0)

  /** The flag chain of the full builder, in its priority order. */
  function PolicyOf(f: ColorFlags): (p: Policy)
    ensures p != BlueGradient
    ensures f.isBottle ==> p == SolidRed
    ensures p == Rosy <==> !f.isBottle && f.cat !in {1, 2, 3} && f.isHeart
    ensures p == Unpainted <==> !f.isBottle && f.cat !in {1, 2, 3} && !f.isHeart
  {
    if f.isBottle then SolidRed
    else if f.cat == 1 then Grey
    else if f.cat == 2 then Calico
    else if f.cat == 3 then Warm
    else if f.isHeart then Rosy
    else Unpainted
  }

  /**
   * How many times `for (i = 0; i < n / 3; i++)` runs: `i < n / 3` over the
   * reals holds exactly when `3 * i < n`, so the count is the ceiling of n / 3.
   */
  function Triangles(n: nat): (t: nat)
    ensures n <= 3 * t
    ensures t > 0 ==> 3 * (t - 1) < n
  {
    (n + 2) / 3
  }

  /** The shade of triangle i out of a list of n vertices. */
  function Shade(i: nat, n: nat): (s: real)
    requires 3 * i < n
    ensures 0.0 <= s < 1.0
  {
    RatioBounds((3 * i) as real, (3 * i) as real, n as real);
    (3 * i) as real / n as real
  }

  /** Division by a positive denominator keeps order, and a smaller numerator stays below 1. */
  lemma RatioBounds(a: real, c: real, b: real)
    requires 0.0 <= a <= c && c < b
    ensures 0.0 <= a / b <= c / b < 1.0
  {
    assert a / b * b == a && c / b * b == c;
    assert (c / b - a / b) * b == c - a;
    assert (1.0 - c / b) * b == b - c;
    if c / b >= 1.0 {
      assert false;
    }
  }

  /** The three thresholds of the calico branch, applied to one random draw. */
  function CalicoColor(rand: real): (c: Rgb)
    ensures c in {White, Black, Orange}
    ensures rand < 0.33 <==> c == White
  {
    if rand < 0.33 then White
    else if rand < 0.66 then Black
    else Orange
  }

  /** The colour a painting policy gives a vertex of the given shade and draw. */
  function VertexColor(p: Policy, shade: real, rand: real): Rgb
    requires p != Unpainted
  {
    match p
    case SolidRed => Rgb(1.0, 0.0, 0.0)
    case Grey => Rgb(shade, shade, shade)
    case Calico => CalicoColor(rand)
    case Warm => Rgb(0.8 * shade + 0.3, 0.6 * shade + 0.3, 0.4 * shade + 0.2)
    case Rosy => Rgb(0.7, 0.1 * (1.0 - shade) + 0.05, 0.3 * shade + 0.2)
    case BlueGradient => Rgb(shade, shade, 1.0)
  }

  /** What one pass of the inner loop pushes. */
  function Pushed(p: Policy, shade: real, rand: real): seq<real> {
    if p == Unpainted then [] else VertexColor(p, shade, rand).Floats()
  }

  /** The random source holds one draw per vertex slot when the calico branch runs. */
  predicate DrawsSuffice(n: nat, p: Policy, draws: seq<real>) {
    p == Calico ==> |draws| >= 3 * Triangles(n)
  }

  /** The draw vertex slot k sees; only the calico branch looks at it. */
  function RandAt(p: Policy, draws: seq<real>, k: nat): real
    requires p == Calico ==> k < |draws|
  {
    if p == Calico then draws[k] else 0.0
  }

  /** The floats pushed for the first v vertices of triangle i. */
  function VertexRun(n: nat, p: Policy, draws: seq<real>, i: nat, v: nat): seq<real>
    requires 3 * i < n && v <= 3 && DrawsSuffice(n, p, draws)
  {
    if v == 0 then []
    else VertexRun(n, p, draws, i, v - 1) + Pushed(p, Shade(i, n), RandAt(p, draws, 3 * i + v - 1))
  }

  /** The floats pushed for the first t triangles. */
  function ColorPrefix(n: nat, p: Policy, draws: seq<real>, t: nat): seq<real>
    requires t <= Triangles(n) && DrawsSuffice(n, p, draws)
  {
    if t == 0 then []
    else ColorPrefix(n, p, draws, t - 1) + VertexRun(n, p, draws, t - 1, 3)
  }

  /** The whole colour list for n vertices under policy p. */
  function ColorList(n: nat, p: Policy, draws: seq<real>): seq<real>
    requires DrawsSuffice(n, p, draws)
  {
    ColorPrefix(n, p, draws, Triangles(n))
  }

  /** The colour of vertex k in a flat float list. */
  function TripleAt(s: seq<real>, k: nat): Rgb
    requires 3 * k + 3 <= |s|
  {
    Rgb(s[3 * k], s[3 * k + 1], s[3 * k + 2])
  }

  /**
   * The full builder (project1.js). The flag chain is re-tested for every
   * vertex, as in the source; Math.random is the oracle `draws`, consumed one
   * element per vertex and only in the cat == 2 branch.
   */
  method BuildColorAttributes(vertexCount: nat, flags: ColorFlags, draws: seq<real>)
    returns (colors: seq<real>)
    requires DrawsSuffice(vertexCount, PolicyOf(flags), draws)
    ensures colors == ColorList(vertexCount, PolicyOf(flags), draws)
    ensures |colors| == if PolicyOf(flags) == Unpainted then 0 else 9 * Triangles(vertexCount)
  {
    ghost var p := PolicyOf(flags);
    colors := [];
    var next := 0;  // how many draws Math.random has handed out
    var i := 0;
    while 3 * i < vertexCount  // i < vertex_count / 3
      invariant i <= Triangles(vertexCount)
      invariant colors == ColorPrefix(vertexCount, p, draws, i)
      invariant next == if p == Calico then 3 * i else 0
    {
      ghost var done := colors;
      var vert := 0;
      while vert < 3
        invariant vert <= 3
        invariant colors == done + VertexRun(vertexCount, p, draws, i, vert)
        invariant next == if p == Calico then 3 * i + vert else 0
      {
        var shade := (i * 3) as real / vertexCount as real;
        assert shade == Shade(i, vertexCount);
        ghost var rand' := RandAt(p, draws, 3 * i + vert);
        var pushed: seq<real> := [];
        if flags.isBottle {
          pushed := [1.0, 0.0, 0.0];
          assert pushed == Pushed(SolidRed, shade, rand');
        } else if flags.cat == 1 {
          pushed := [shade, shade, shade];
          assert pushed == Pushed(Grey, shade, rand');
        } else if flags.cat == 2 {
          var rand := draws[next];
          next := next + 1;
          if rand < 0.33 {
            pushed := [1.0, 1.0, 1.0];
          } else if rand < 0.66 {
            pushed := [0.1, 0.1, 0.1];
          } else {
            pushed := [1.0, 0.5, 0.2];
          }
          assert pushed == CalicoColor(rand).Floats();
        } else if flags.cat == 3 {
          pushed := [0.8 * shade + 0.3, 0.6 * shade + 0.3, 0.4 * shade + 0.2];
          assert pushed == Pushed(Warm, shade, rand');
        } else if flags.isHeart {
          pushed := [0.7, 0.1 * (1.0 - shade) + 0.05, 0.3 * shade + 0.2];
          assert pushed == Pushed(Rosy, shade, rand');
        }
        assert pushed == Pushed(p, shade, rand');
        VertexRunStep(vertexCount, p, draws, i, vert);
        AppendAssoc(done, VertexRun(vertexCount, p, draws, i, vert), pushed);
        colors := colors + pushed;
        vert := vert + 1;
      }
      ColorPrefixStep(vertexCount, p, draws, i);
      i := i + 1;
    }
    ColorListLength(vertexCount, p, draws);
  }

  /** The starter builder: a blue gradient, one shade per triangle. */
  method BuildBlueGradient(vertexCount: nat) returns (colors: seq<real>)
    ensures colors == ColorList(vertexCount, BlueGradient, [])
    ensures |colors| == 9 * Triangles(vertexCount)
    ensures vertexCount % 3 == 0 ==> |colors| == 3 * vertexCount
    ensures forall k :: 0 <= k < 3 * Triangles(vertexCount) ==>
      3 * (k / 3) < vertexCount &&
      TripleAt(colors, k) == Rgb(Shade(k / 3, vertexCount), Shade(k / 3, vertexCount), 1.0)
  {
    colors := [];
    var i := 0;
    while 3 * i < vertexCount  // i < vertex_count / 3
      invariant i <= Triangles(vertexCount)
      invariant colors == ColorPrefix(vertexCount, BlueGradient, [], i)
    {
      var vert := 0;
      while vert < 3
        invariant vert <= 3
        invariant colors == ColorPrefix(vertexCount, BlueGradient, [], i) + VertexRun(vertexCount, BlueGradient, [], i, vert)
      {
        var shade := (i * 3) as real / vertexCount as real;
        colors := colors + [shade, shade, 1.0];
        vert := vert + 1;
      }
      i := i + 1;
    }
    ColorListLength(vertexCount, BlueGradient, []);
    forall k | 0 <= k < 3 * Triangles(vertexCount)
      ensures 3 * (k / 3) < vertexCount
      ensures TripleAt(colors, k) == Rgb(Shade(k / 3, vertexCount), Shade(k / 3, vertexCount), 1.0)
    {
      ColorListAt(vertexCount, BlueGradient, [], k);
    }
  }

  // ---------------------------------------------------------------------------
  // Properties of the colour list

  lemma AppendAssoc(a: seq<real>, b: seq<real>, c: seq<real>)
    ensures (a + b) + c == a + (b + c)
  {
  }

  lemma VertexRunStep(n: nat, p: Policy, draws: seq<real>, i: nat, v: nat)
    requires 3 * i < n && v < 3 && DrawsSuffice(n, p, draws)
    ensures p == Calico ==> 3 * i + v < |draws|
    ensures VertexRun(n, p, draws, i, v + 1)
         == VertexRun(n, p, draws, i, v) + Pushed(p, Shade(i, n), RandAt(p, draws, 3 * i + v))
  {
  }

  lemma ColorPrefixStep(n: nat, p: Policy, draws: seq<real>, t: nat)
    requires 3 * t < n && DrawsSuffice(n, p, draws)
    ensures t + 1 <= Triangles(n)
    ensures ColorPrefix(n, p, draws, t + 1) == ColorPrefix(n, p, draws, t) + VertexRun(n, p, draws, t, 3)
  {
  }

  lemma {:induction false} VertexRunLength(n: nat, p: Policy, draws: seq<real>, i: nat, v: nat)
    requires 3 * i < n && v <= 3 && DrawsSuffice(n, p, draws)
    ensures |VertexRun(n, p, draws, i, v)| == if p == Unpainted then 0 else 3 * v
  {
    if v > 0 {
      VertexRunLength(n, p, draws, i, v - 1);
    }
  }

  lemma {:induction false} ColorPrefixLength(n: nat, p: Policy, draws: seq<real>, t: nat)
    requires t <= Triangles(n) && DrawsSuffice(n, p, draws)
    ensures |ColorPrefix(n, p, draws, t)| == if p == Unpainted then 0 else 9 * t
  {
    if t > 0 {
      ColorPrefixLength(n, p, draws, t - 1);
      VertexRunLength(n, p, draws, t - 1, 3);
    }
  }

  /**
   * Nine floats per triangle for ceil(n / 3) triangles, hence exactly 3n floats
   * when 3 divides n; nothing at all when no flag applies.
   */
  lemma ColorListLength(n: nat, p: Policy, draws: seq<real>)
    requires DrawsSuffice(n, p, draws)
    ensures |ColorList(n, p, draws)| == if p == Unpainted then 0 else 9 * Triangles(n)
    ensures p != Unpainted && n % 3 == 0 ==> |ColorList(n, p, draws)| == 3 * n
    ensures p == Unpainted ==> ColorList(n, p, draws) == []
  {
    ColorPrefixLength(n, p, draws, Triangles(n));
  }

  lemma {:induction false} VertexRunAt(n: nat, p: Policy, draws: seq<real>, i: nat, v: nat, u: nat)
    requires 3 * i < n && v <= 3 && DrawsSuffice(n, p, draws)
    requires p != Unpainted && u < v
    ensures |VertexRun(n, p, draws, i, v)| == 3 * v
    ensures TripleAt(VertexRun(n, p, draws, i, v), u) == VertexColor(p, Shade(i, n), RandAt(p, draws, 3 * i + u))
  {
    VertexRunLength(n, p, draws, i, v);
    VertexRunLength(n, p, draws, i, v - 1);
    if u < v - 1 {
      VertexRunAt(n, p, draws, i, v - 1, u);
    }
  }

  /** Corner u of triangle i among the first t triangles: the policy applied to that triangle's shade and that slot's draw. */
  lemma {:induction false} ColorPrefixAt(n: nat, p: Policy, draws: seq<real>, t: nat, i: nat, u: nat)
    requires t <= Triangles(n) && DrawsSuffice(n, p, draws)
    requires p != Unpainted && i < t && u < 3
    ensures 3 * i < n && 3 * (3 * i + u) + 3 <= |ColorPrefix(n, p, draws, t)|
    ensures TripleAt(ColorPrefix(n, p, draws, t), 3 * i + u) == VertexColor(p, Shade(i, n), RandAt(p, draws, 3 * i + u))
  {
    if i < t - 1 {
      var before := ColorPrefix(n, p, draws, t - 1);
      var run := VertexRun(n, p, draws, t - 1, 3);
      assert ColorPrefix(n, p, draws, t) == before + run;
      ColorPrefixLength(n, p, draws, t - 1);
      ColorPrefixAt(n, p, draws, t - 1, i, u);
      TripleAtLeft(before, run, 3 * i + u);
    } else {
      ColorPrefixLast(n, p, draws, t, u);
    }
  }

  /** Corner u of the last of the first t triangles comes from that triangle's run. */
  lemma ColorPrefixLast(n: nat, p: Policy, draws: seq<real>, t: nat, u: nat)
    requires 0 < t <= Triangles(n) && DrawsSuffice(n, p, draws)
    requires p != Unpainted && u < 3
    ensures 3 * (t - 1) < n && 3 * (3 * (t - 1) + u) + 3 <= |ColorPrefix(n, p, draws, t)|
    ensures TripleAt(ColorPrefix(n, p, draws, t), 3 * (t - 1) + u) == VertexColor(p, Shade(t - 1, n), RandAt(p, draws, 3 * (t - 1) + u))
  {
    var i := t - 1;
    var before := ColorPrefix(n, p, draws, i);
    var run := VertexRun(n, p, draws, i, 3);
    assert ColorPrefix(n, p, draws, t) == before + run;
    ColorPrefixLength(n, p, draws, i);
    VertexRunAt(n, p, draws, i, 3, u);
    TripleAtRight(before, run, 3 * i, u);
  }

  lemma TripleAtLeft(a: seq<real>, b: seq<real>, k: nat)
    requires 3 * k + 3 <= |a|
    ensures TripleAt(a + b, k) == TripleAt(a, k)
  {
  }

  lemma TripleAtRight(a: seq<real>, b: seq<real>, j: nat, u: nat)
    requires |a| == 3 * j && 3 * u + 3 <= |b|
    ensures TripleAt(a + b, j + u) == TripleAt(b, u)
  {
  }

  /** Vertex k's colour is the policy applied to its triangle's shade and its own draw. */
  lemma ColorListAt(n: nat, p: Policy, draws: seq<real>, k: nat)
    requires DrawsSuffice(n, p, draws)
    requires p != Unpainted && k < 3 * Triangles(n)
    ensures 3 * (k / 3) < n && 3 * k + 3 <= |ColorList(n, p, draws)|
    ensures TripleAt(ColorList(n, p, draws), k) == VertexColor(p, Shade(k / 3, n), RandAt(p, draws, k))
  {
    ColorPrefixAt(n, p, draws, Triangles(n), k / 3, k % 3);
  }

  /**
   * For every policy except the calico one, the three vertices of triangle i
   * get one and the same colour, computed from the shade 3i / n.
   */
  lemma FlatPerTriangle(n: nat, p: Policy, draws: seq<real>, i: nat)
    requires DrawsSuffice(n, p, draws)
    requires p != Unpainted && p != Calico && 3 * i < n
    ensures 9 * i + 9 <= |ColorList(n, p, draws)|
    ensures TripleAt(ColorList(n, p, draws), 3 * i) == VertexColor(p, Shade(i, n), 0.0)
    ensures TripleAt(ColorList(n, p, draws), 3 * i + 1) == VertexColor(p, Shade(i, n), 0.0)
    ensures TripleAt(ColorList(n, p, draws), 3 * i + 2) == VertexColor(p, Shade(i, n), 0.0)
  {
    var t := Triangles(n);
    assert i < t;
    assert (3 * i) / 3 == i && (3 * i + 1) / 3 == i && (3 * i + 2) / 3 == i;
    ColorListAt(n, p, draws, 3 * i);
    ColorListAt(n, p, draws, 3 * i + 1);
    ColorListAt(n, p, draws, 3 * i + 2);
  }

  /** In the calico branch every vertex takes a palette colour from its own draw. */
  lemma CalicoPalette(n: nat, draws: seq<real>, k: nat)
    requires DrawsSuffice(n, Calico, draws) && k < 3 * Triangles(n)
    ensures k < |draws| && 3 * k + 3 <= |ColorList(n, Calico, draws)|
    ensures TripleAt(ColorList(n, Calico, draws), k) == CalicoColor(draws[k])
    ensures TripleAt(ColorList(n, Calico, draws), k) in {White, Black, Orange}
  {
    ColorListAt(n, Calico, draws, k);
  }

  /** One triangle of the calico cat can show three different colours. */
  lemma CalicoNotPerTriangle()
    ensures DrawsSuffice(3, Calico, [0.1, 0.5, 0.9])
    ensures ColorList(3, Calico, [0.1, 0.5, 0.9]) == White.Floats() + Black.Floats() + Orange.Floats()
  {
    var s := ColorList(3, Calico, [0.1, 0.5, 0.9]);
    ColorListLength(3, Calico, [0.1, 0.5, 0.9]);
    CalicoPalette(3, [0.1, 0.5, 0.9], 0);
    CalicoPalette(3, [0.1, 0.5, 0.9], 1);
    CalicoPalette(3, [0.1, 0.5, 0.9], 2);
    assert s == s[0..3] + s[3..6] + s[6..9];
  }

  /** The shade grows with the triangle index. */
  lemma ShadeMonotone(i: nat, j: nat, n: nat)
    requires i <= j && 3 * j < n
    ensures Shade(i, n) <= Shade(j, n)
  {
    RatioBounds((3 * i) as real, (3 * j) as real, n as real);
  }

  /** Every policy but the warm one keeps each channel within [0, 1]. */
  lemma UnitCubeExceptWarm(p: Policy, shade: real, rand: real)
    requires p != Unpainted && p != Warm && 0.0 <= shade < 1.0
    ensures VertexColor(p, shade, rand).InUnitCube()
  {
  }

  /** The warm policy's red channel, 0.8 * shade + 0.3, overshoots 1 near the end of a mesh. */
  lemma WarmRedExceedsOne()
    ensures DrawsSuffice(30, Warm, [])
    ensures 3 * 27 + 3 <= |ColorList(30, Warm, [])|
    ensures TripleAt(ColorList(30, Warm, []), 27).r > 1.0
  {
    ColorListAt(30, Warm, [], 27);
    assert Shade(9, 30) == 0.9;
  }

  /** Three triangles under the grey policy are shaded 0, 1/3 and 2/3. */
  lemma GreyShadesOfNine(k: nat)
    requires k < 9
    ensures 3 * k + 3 <= |ColorList(9, Grey, [])|
    ensures var s := (k / 3) as real / 3.0; TripleAt(ColorList(9, Grey, []), k) == Rgb(s, s, s)
  {
    ColorListAt(9, Grey, [], k);
  }
}
