// A model of AgriCraft's genome double-helix renderer (AgriGenomeRenderer).
//
// The renderer draws a genome as two helical strands (dominant colours on one,
// recessive colours on the other) joined by one spoke per gene, as GL line
// segments. Here the GPU vertex builder is a sequence of vertex records that
// the emitters append to. A vertex's position is kept symbolic, as a place
// round the vertical axis and a height counted in height steps; Coordinates
// turns it into x, y, z with the host's cosine and sine, which stay
// uninterpreted (a `Trig` parameter). Colours and blend fractions are exact
// reals.

module GenomeRenderer {

  /** An RGB colour. */
  datatype Color = Color(r: real, g: real, b: real)

  /** The two visualisation colours of the gene behind one gene pair of a genome. */
  datatype Gene = Gene(dominantColor: Color, recessiveColor: Color)

  /** The host's cosine and sine, about which nothing is assumed. */
  datatype Trig = Trig(cos: real -> real, sin: real -> real)

  /** Where a vertex lies round the vertical axis, kept symbolic: the host
      works out x and z from it with its own cosine and sine.
      Rim(phase, step) is the point of the helix circle at the angle
      step * dAngle + phase; Chord(phase1, phase2, step, f) is the point a
      fraction f of the way from Rim(phase1, step) to Rim(phase2, step). */
  datatype Place =
    | Rim(phase: real, step: nat)
    | Chord(phase1: real, phase2: real, step: nat, f: real)

  /** One vertex handed to the vertex builder: its place round the axis, its
      height as a number `level` of height steps, its colour and alpha, and the
      rotation about the vertical axis of the matrix it was emitted under. */
  datatype Vertex = Vertex(place: Place, level: int, color: Color, alpha: real, rotation: real)

  /** What stays fixed during one rendering call: helix radius, height step,
      angle step, the rotation of the matrix, and alpha. */
  datatype Layout = Layout(radius: real, dHeight: real, dAngle: real, rotation: real, alpha: real)

  datatype Position = Position(x: real, y: real, z: real)

  /** `(float) Math.PI`, exactly. */
  const PI: real := 13176795.0 / 4194304.0

  /** Helix rotation per gene: 30 degrees. */
  const RADIANS_PER_GENE: real := 30.0 * PI / 180.0

  /** Helix sample points per gene. */
  const POINTS_PER_GENE: nat := 10

  /** Colour of inactive genes. */
  const COLOR_INACTIVE: Color := Color(0.15, 0.15, 0.15)

  /** The vertex sink: every vertex emitted so far, in order. */
  class VertexBuilder {
    var vertices: seq<Vertex>

    method AddVertex(v: Vertex)
      modifies this
      ensures vertices == old(vertices) + [v]
    {
      vertices := vertices + [v];
    }
  }

  // ---------------------------------------------------------------------------
  // Colours

  function Lerp(f: real, a: real, b: real): real {
    a + f * (b - a)
  }

  function LerpColor(f: real, a: Color, b: Color): Color {
    Color(Lerp(f, a.r, b.r), Lerp(f, a.g, b.g), Lerp(f, a.b, b.b))
  }

  /** The colour of a gene on the dominant or recessive strand, greyed out unless active. */
  function GetColor(gene: Gene, active: bool, dominant: bool): (c: Color)
    ensures c != COLOR_INACTIVE ==> active
    ensures active && dominant ==> c == gene.dominantColor
    ensures active && !dominant ==> c == gene.recessiveColor
  {
    if active then
      (if dominant then gene.dominantColor else gene.recessiveColor)
    else
      COLOR_INACTIVE
  }

  /** Helix point `i` of a genome of `count` genes belongs to one of its genes. */
  lemma PointOwner(i: nat, count: nat)
    requires i < POINTS_PER_GENE * count
    ensures i / POINTS_PER_GENE < count
  {
  }

  /** The unblended colour of gene `index` on a strand, given the active gene. */
  function StrandColor(genes: seq<Gene>, active: int, dominant: bool, index: nat): Color
    requires index < |genes|
  {
    GetColor(genes[index], index == active, dominant)
  }

  /** The gene whose midpoint is the last one at or before helix point `i`;
      the first gene for the points before its midpoint. */
  function LowerGene(i: nat): nat {
    if i < POINTS_PER_GENE / 2 then 0 else (i - POINTS_PER_GENE / 2) / POINTS_PER_GENE
  }

  /** The gene whose midpoint is the first one after LowerGene(i)'s, or the
      last gene when there is none. */
  function UpperGene(count: nat, i: nat): nat
    requires count > 0
  {
    if LowerGene(i) + 1 < count then LowerGene(i) + 1 else count - 1
  }

  /** How far helix point `i` lies from the midpoint of LowerGene(i) towards
      the next midpoint, in tenths. */
  function MidpointFraction(i: nat): real {
    if i < POINTS_PER_GENE / 2 then 0.0
    else ((i - POINTS_PER_GENE / 2) % POINTS_PER_GENE) as real / POINTS_PER_GENE as real
  }

  /** The colour of helix point `i` on a strand: the owning gene's colour, blended
      with the previous gene in the first half of its points and with the next
      gene in the second half; neighbour indices are clamped to the genome. */
  function PointColor(genes: seq<Gene>, active: int, dominant: bool, i: nat): Color
    requires i < POINTS_PER_GENE * |genes|
  {
    var index := i / POINTS_PER_GENE;
    var partial := i % POINTS_PER_GENE;
    var color := StrandColor(genes, active, dominant, index);
    if partial < POINTS_PER_GENE / 2 then
      var prevIndex := if index - 1 < 0 then index else index - 1;
      var f := (partial as real + POINTS_PER_GENE as real / 2.0) / POINTS_PER_GENE as real;
      LerpColor(f, StrandColor(genes, active, dominant, prevIndex), color)
    else if partial > POINTS_PER_GENE / 2 then
      var nextIndex := if index + 1 >= |genes| then index else index + 1;
      var f := (partial as real - POINTS_PER_GENE as real / 2.0) / POINTS_PER_GENE as real;
      LerpColor(f, color, StrandColor(genes, active, dominant, nextIndex))
    else
      color
  }

  /** On the active gene the dominant strand shows the gene's dominant colour
      and the recessive strand its recessive colour; every other gene is grey
      on both strands. */
  lemma StrandColorOfGene(genes: seq<Gene>, active: int, index: nat)
    requires index < |genes|
    ensures index == active ==>
      && StrandColor(genes, active, true, index) == genes[index].dominantColor
      && StrandColor(genes, active, false, index) == genes[index].recessiveColor
    ensures index != active ==>
      StrandColor(genes, active, true, index) == StrandColor(genes, active, false, index) == COLOR_INACTIVE
  {
  }

  /** Every point of a strand has the colour a fraction MidpointFraction(i) of
      the way from the colour of LowerGene(i) to that of the gene after it:
      colours move between the midpoints of neighbouring genes, and are held
      at the first gene's colour before its midpoint and at the last gene's
      colour after its midpoint. */
  lemma PointColorBetweenMidpoints(genes: seq<Gene>, active: int, dominant: bool, i: nat)
    requires i < POINTS_PER_GENE * |genes|
    ensures LowerGene(i) < |genes|
    ensures PointColor(genes, active, dominant, i)
         == LerpColor(MidpointFraction(i), StrandColor(genes, active, dominant, LowerGene(i)),
                      StrandColor(genes, active, dominant, UpperGene(|genes|, i)))
  {
    var index := i / POINTS_PER_GENE;
    var partial := i % POINTS_PER_GENE;
    assert i == POINTS_PER_GENE * index + partial;
    if partial < POINTS_PER_GENE / 2 {
      if index > 0 {
        assert LowerGene(i) == index - 1;
        assert MidpointFraction(i) == (partial as real + 5.0) / 10.0;
      }
    } else {
      assert LowerGene(i) == index;
      assert MidpointFraction(i) == (partial as real - 5.0) / 10.0;
    }
  }

  lemma LerpColorSame(f: real, c: Color)
    ensures LerpColor(f, c, c) == c
  {
  }

  /** Between the midpoints of two neighbouring genes a strand's colour moves
      linearly, a tenth of the way per point, from the first gene's colour to
      the second's; half way (the first point of the second gene) it is the
      even blend of the two. */
  lemma StrandBlendsBetweenMidpoints(genes: seq<Gene>, active: int, dominant: bool, k: nat, t: nat)
    requires k + 1 < |genes| && t <= POINTS_PER_GENE
    ensures POINTS_PER_GENE * k + 5 + t < POINTS_PER_GENE * |genes|
    ensures PointColor(genes, active, dominant, POINTS_PER_GENE * k + 5 + t)
         == LerpColor(t as real / 10.0, StrandColor(genes, active, dominant, k),
                      StrandColor(genes, active, dominant, k + 1))
  {
    var i := POINTS_PER_GENE * k + 5 + t;
    var a := StrandColor(genes, active, dominant, k);
    var b := StrandColor(genes, active, dominant, k + 1);
    if t < 5 {
      assert i / POINTS_PER_GENE == k && i % POINTS_PER_GENE == 5 + t;
    } else if t < 10 {
      assert i / POINTS_PER_GENE == k + 1 && i % POINTS_PER_GENE == t - 5;
    } else {
      assert i / POINTS_PER_GENE == k + 1 && i % POINTS_PER_GENE == 5;
      assert LerpColor(1.0, a, b) == b;
    }
  }

  /** There is no wraparound: up to the first gene's midpoint a strand has the
      first gene's colour, and from the last gene's midpoint on the last gene's. */
  lemma StrandClampedAtEnds(genes: seq<Gene>, active: int, dominant: bool, i: nat)
    requires i < POINTS_PER_GENE * |genes|
    ensures i <= 5 ==> PointColor(genes, active, dominant, i) == StrandColor(genes, active, dominant, 0)
    ensures i >= POINTS_PER_GENE * (|genes| - 1) + 5 ==>
      PointColor(genes, active, dominant, i) == StrandColor(genes, active, dominant, |genes| - 1)
  {
    if i <= 5 {
      assert i / POINTS_PER_GENE == 0;
      LerpColorSame((i as real + 5.0) / 10.0, StrandColor(genes, active, dominant, 0));
    }
    if i >= POINTS_PER_GENE * (|genes| - 1) + 5 {
      var last := |genes| - 1;
      assert i / POINTS_PER_GENE == last;
      LerpColorSame((i % POINTS_PER_GENE) as real / 10.0 - 0.5, StrandColor(genes, active, dominant, last));
    }
  }

  /** With a single gene every point of a strand has that gene's strand colour. */
  lemma SingleGeneStrand(genes: seq<Gene>, active: int, dominant: bool, i: nat)
    requires |genes| == 1 && i < POINTS_PER_GENE
    ensures PointColor(genes, active, dominant, i)
         == GetColor(genes[0], active == 0, dominant)
  {
    StrandClampedAtEnds(genes, active, dominant, i);
  }

  /** The active gene shows its own strand colour, unblended, at its midpoint. */
  lemma ActiveGeneMidpoint(genes: seq<Gene>, active: nat, dominant: bool)
    requires active < |genes|
    ensures POINTS_PER_GENE * active + 5 < POINTS_PER_GENE * |genes|
    ensures PointColor(genes, active, dominant, POINTS_PER_GENE * active + 5)
         == (if dominant then genes[active].dominantColor else genes[active].recessiveColor)
  {
    var i := POINTS_PER_GENE * active + 5;
    assert i / POINTS_PER_GENE == active && i % POINTS_PER_GENE == 5;
  }

  /** Only the stretch between the midpoints of the active gene's neighbours is
      coloured; every other point of a strand is inactive grey. */
  lemma GreyOutsideActiveWindow(genes: seq<Gene>, active: int, dominant: bool, i: nat)
    requires i < POINTS_PER_GENE * |genes|
    requires i <= POINTS_PER_GENE * active - 5 || i >= POINTS_PER_GENE * active + 15
    ensures PointColor(genes, active, dominant, i) == COLOR_INACTIVE
  {
    var index := i / POINTS_PER_GENE;
    var partial := i % POINTS_PER_GENE;
    assert i == POINTS_PER_GENE * index + partial;
    LerpColorSame((partial as real + 5.0) / 10.0, COLOR_INACTIVE);
    LerpColorSame((partial as real - 5.0) / 10.0, COLOR_INACTIVE);
  }

  /** An active index outside the genome greys out every point of both strands. */
  lemma ActiveOutOfRangeIsGrey(genes: seq<Gene>, active: int, dominant: bool, i: nat)
    requires active < 0 || active >= |genes|
    requires i < POINTS_PER_GENE * |genes|
    ensures PointColor(genes, active, dominant, i) == COLOR_INACTIVE
  {
    var partial := i % POINTS_PER_GENE;
    LerpColorSame((partial as real + 5.0) / 10.0, COLOR_INACTIVE);
    LerpColorSame((partial as real - 5.0) / 10.0, COLOR_INACTIVE);
  }


  // ---------------------------------------------------------------------------
  // Positions

  /** The point `step` angle steps round the helix from `phase`, at height y. */
  function OnRim(l: Layout, trig: Trig, phase: real, step: nat, y: real): Position {
    var angle := step as real * l.dAngle + phase;
    Position(l.radius * trig.cos(-angle), y, l.radius * trig.sin(-angle))
  }

  /** The coordinates the host computes for a vertex with its cosine and sine.
      A chord runs from the rim point of its first phase (f = 0) to the rim
      point of its second (f = 1), at the vertex's height. */
  function Coordinates(l: Layout, trig: Trig, v: Vertex): (p: Position)
    ensures p.y == l.dHeight * v.level as real
    ensures v.place.Chord? && v.place.f == 0.0 ==>
      p == OnRim(l, trig, v.place.phase1, v.place.step, p.y)
    ensures v.place.Chord? && v.place.f == 1.0 ==>
      p == OnRim(l, trig, v.place.phase2, v.place.step, p.y)
  {
    var y := l.dHeight * v.level as real;
    match v.place
    case Rim(phase, step) => OnRim(l, trig, phase, step, y)
    case Chord(phase1, phase2, step, f) =>
      var p1 := OnRim(l, trig, phase1, step, y);
      var p2 := OnRim(l, trig, phase2, step, y);
      Position(Lerp(f, p1.x, p2.x), y, Lerp(f, p1.z, p2.z))
  }

  /** Vertices at the same place have the same horizontal coordinates and
      differ in height by whole height steps. */
  lemma PlaceFixesXZ(l: Layout, trig: Trig, v: Vertex, w: Vertex)
    requires v.place == w.place
    ensures Coordinates(l, trig, v).x == Coordinates(l, trig, w).x
    ensures Coordinates(l, trig, v).z == Coordinates(l, trig, w).z
    ensures Coordinates(l, trig, v).y - Coordinates(l, trig, w).y == l.dHeight * (v.level - w.level) as real
  {
  }

  // ---------------------------------------------------------------------------
  // Strands

  /** A point of the helix path: a place round the axis and a level. */
  datatype Corner = Corner(place: Place, level: int)

  /** Corner `k` of a strand: where segment k - 1 ends and segment k starts.
      Corner 0 is the top of the strand; segment i ends `i + 1` angle steps
      round, at level points - i. */
  function HelixCorner(phase: real, points: nat, k: nat): Corner {
    if k == 0 then Corner(Rim(phase, 0), points)
    else Corner(Rim(phase, k), points - (k - 1))
  }

  function At(c: Corner, color: Color, l: Layout): Vertex {
    Vertex(c.place, c.level, color, l.alpha, l.rotation)
  }

  /** Vertex `k` of a strand: segment k / 2 runs from corner k / 2 to corner
      k / 2 + 1 in the colour of helix point k / 2. */
  function HelixVertex(genes: seq<Gene>, active: int, l: Layout, phase: real,
                       points: nat, dominant: bool, k: nat): Vertex
    requires points <= POINTS_PER_GENE * |genes| && k < 2 * points
  {
    var i := k / 2;
    assert i < points;
    At(HelixCorner(phase, points, (k + 1) / 2), PointColor(genes, active, dominant, i), l)
  }

  /** The vertices of a strand's first `n` segments, in emission order. */
  function Strand(genes: seq<Gene>, active: int, l: Layout, phase: real,
                  points: nat, dominant: bool, n: nat): seq<Vertex>
    requires points <= POINTS_PER_GENE * |genes| && n <= points
  {
    if n == 0 then [] else
      var c := PointColor(genes, active, dominant, n - 1);
      Strand(genes, active, l, phase, points, dominant, n - 1)
        + [At(HelixCorner(phase, points, n - 1), c, l), At(HelixCorner(phase, points, n), c, l)]
  }

  /** The vertices one strand emits. */
  function HelixVertices(genes: seq<Gene>, active: int, l: Layout, phase: real,
                         points: nat, dominant: bool): seq<Vertex>
    requires points <= POINTS_PER_GENE * |genes|
  {
    Strand(genes, active, l, phase, points, dominant, points)
  }

  /** A strand's first `n` segments are 2n vertices, vertex k being HelixVertex(k). */
  lemma {:induction false} StrandLayout(genes: seq<Gene>, active: int, l: Layout, phase: real,
                                        points: nat, dominant: bool, n: nat)
    requires points <= POINTS_PER_GENE * |genes| && n <= points
    ensures |Strand(genes, active, l, phase, points, dominant, n)| == 2 * n
    ensures forall k :: 0 <= k < 2 * n ==>
      Strand(genes, active, l, phase, points, dominant, n)[k]
        == HelixVertex(genes, active, l, phase, points, dominant, k)
  {
    if n > 0 {
      StrandLayout(genes, active, l, phase, points, dominant, n - 1);
      var prev := Strand(genes, active, l, phase, points, dominant, n - 1);
      var c := PointColor(genes, active, dominant, n - 1);
      var vs := Strand(genes, active, l, phase, points, dominant, n);
      assert vs == prev + [At(HelixCorner(phase, points, n - 1), c, l), At(HelixCorner(phase, points, n), c, l)];
      forall k | 0 <= k < 2 * n
        ensures vs[k] == HelixVertex(genes, active, l, phase, points, dominant, k)
      {
        if k < 2 * n - 2 {
          assert vs[k] == prev[k];
        } else if k == 2 * n - 2 {
          assert k / 2 == n - 1 && (k + 1) / 2 == n - 1;
        } else {
          assert k / 2 == n - 1 && (k + 1) / 2 == n;
        }
      }
    }
  }

  /** The colour of helix point `i`, computed as the strand loop computes it:
      blended with the previous gene before the owning gene's midpoint and with
      the next gene after it. It is the loop's colour block as a method of its
      own, so that DrawHelix's proof only sees its result; PointColor states
      the same rule as a function. */
  method DetermineColor(genes: seq<Gene>, active: int, dominant: bool, i: nat) returns (color: Color)
    requires i < POINTS_PER_GENE * |genes|
    ensures color == PointColor(genes, active, dominant, i)
  {
    var index := i / POINTS_PER_GENE;
    var partial := i % POINTS_PER_GENE;
    PointOwner(i, |genes|);
    color := GetColor(genes[index], index == active, dominant);
    if partial < POINTS_PER_GENE / 2 {
      var prevIndex := if index - 1 < 0 then index else index - 1;
      var prevColor := GetColor(genes[prevIndex], prevIndex == active, dominant);
      var f := (partial as real + POINTS_PER_GENE as real / 2.0) / POINTS_PER_GENE as real;
      color := LerpColor(f, prevColor, color);
    } else if partial > POINTS_PER_GENE / 2 {
      var nextIndex := if index + 1 >= |genes| then index else index + 1;
      var nextColor := GetColor(genes[nextIndex], nextIndex == active, dominant);
      var f := (partial as real - POINTS_PER_GENE as real / 2.0) / POINTS_PER_GENE as real;
      color := LerpColor(f, color, nextColor);
    }
  }

  /** Draws one strand of the helix from the top down, appending two vertices
      (one line segment) per helix point. */
  method DrawHelix(genes: seq<Gene>, active: int, l: Layout, phase: real, points: nat,
                   builder: VertexBuilder, dominant: bool)
    requires points <= POINTS_PER_GENE * |genes|
    modifies builder
    ensures builder.vertices == old(builder.vertices) + HelixVertices(genes, active, l, phase, points, dominant)
  {
    var start := Corner(Rim(phase, 0), points);
    for i := 0 to points
      invariant builder.vertices == old(builder.vertices) + Strand(genes, active, l, phase, points, dominant, i)
      invariant start == HelixCorner(phase, points, i)
    {
      var color := DetermineColor(genes, active, dominant, i);
      // Determine coordinates
      var end := Corner(Rim(phase, i + 1), points - i);
      assert end == HelixCorner(phase, points, i + 1);
      // Add vertices for the line segment
      builder.AddVertex(Vertex(start.place, start.level, color, l.alpha, l.rotation));
      builder.AddVertex(Vertex(end.place, end.level, color, l.alpha, l.rotation));
      assert builder.vertices == old(builder.vertices) + Strand(genes, active, l, phase, points, dominant, i + 1);
      // Update the previous coordinates
      start := end;
    }
  }

  /** Vertex k of a strand lies at helix corner (k + 1) / 2 and has the
      colour of helix point k / 2. */
  lemma StrandVertexAt(genes: seq<Gene>, active: int, l: Layout, phase: real,
                       points: nat, dominant: bool, k: nat)
    requires points <= POINTS_PER_GENE * |genes| && k < 2 * points
    ensures |HelixVertices(genes, active, l, phase, points, dominant)| == 2 * points
    ensures var v := HelixVertices(genes, active, l, phase, points, dominant)[k];
      && v.place == Rim(phase, (k + 1) / 2)
      && v.level == HelixCorner(phase, points, (k + 1) / 2).level
      && v.color == PointColor(genes, active, dominant, k / 2)
  {
    StrandLayout(genes, active, l, phase, points, dominant, points);
  }

  /** A strand is a chain of line segments: each segment starts where the
      previous one ended, both vertices of a segment share the point's colour,
      and every vertex carries the layout's alpha and rotation. */
  lemma HelixChained(genes: seq<Gene>, active: int, l: Layout, phase: real,
                     points: nat, dominant: bool, i: nat)
    requires points <= POINTS_PER_GENE * |genes| && i < points
    ensures |HelixVertices(genes, active, l, phase, points, dominant)| == 2 * points
    ensures var vs := HelixVertices(genes, active, l, phase, points, dominant);
      && (i > 0 ==> vs[2 * i].place == vs[2 * i - 1].place && vs[2 * i].level == vs[2 * i - 1].level)
      && vs[2 * i].color == vs[2 * i + 1].color == PointColor(genes, active, dominant, i)
      && vs[2 * i].alpha == vs[2 * i + 1].alpha == l.alpha
      && vs[2 * i].rotation == vs[2 * i + 1].rotation == l.rotation
  {
    StrandLayout(genes, active, l, phase, points, dominant, points);
    assert (2 * i) / 2 == i && (2 * i + 1) / 2 == i;
    if i > 0 {
      assert (2 * i - 1) / 2 == i - 1 && (2 * i - 1 + 1) / 2 == i;
    }
  }

  /** Heights step down from the top: segment `i` ends at level points - i,
      `i + 1` angle steps round the strand, so the first segment is level
      (both ends at level points) and the last one ends at level 1, one height
      step above the base. */
  lemma HelixHeights(genes: seq<Gene>, active: int, l: Layout, phase: real,
                     points: nat, dominant: bool, i: nat)
    requires points <= POINTS_PER_GENE * |genes| && i < points
    ensures |HelixVertices(genes, active, l, phase, points, dominant)| == 2 * points
    ensures var vs := HelixVertices(genes, active, l, phase, points, dominant);
      && vs[2 * i + 1].level == points - i
      && vs[2 * i + 1].place == Rim(phase, i + 1)
      && vs[0].place == Rim(phase, 0)
      && vs[0].level == vs[1].level == points
      && vs[2 * points - 1].level == 1
  {
    StrandLayout(genes, active, l, phase, points, dominant, points);
    assert (2 * i + 1 + 1) / 2 == i + 1;
    assert (0 + 1) / 2 == 0 && (1 + 1) / 2 == 1;
    assert (2 * points - 1 + 1) / 2 == points;
  }

  // ---------------------------------------------------------------------------
  // Spokes

  /** The helix point in the middle of gene `spoke`, where its spoke is drawn. */
  function SpokeStep(spoke: nat): nat {
    spoke * POINTS_PER_GENE + POINTS_PER_GENE / 2
  }

  /** Vertex `j` (of 0 .. POINTS_PER_GENE) along the spoke of gene `spoke`: a
      fraction j / POINTS_PER_GENE of the way from strand 1 to strand 2, in the
      colour as far from the dominant to the recessive colour. */
  function SpokePoint(genes: seq<Gene>, active: int, l: Layout, phase1: real, phase2: real,
                      spoke: nat, j: nat): Vertex
    requires spoke < |genes| && j <= POINTS_PER_GENE
  {
    var i := SpokeStep(spoke);
    var level := POINTS_PER_GENE * |genes| - i;
    var dom := StrandColor(genes, active, true, spoke);
    var rec := StrandColor(genes, active, false, spoke);
    if j == 0 then Vertex(Rim(phase1, i), level, dom, l.alpha, l.rotation)
    else if j == POINTS_PER_GENE then Vertex(Rim(phase2, i), level, rec, l.alpha, l.rotation)
    else
      var f := j as real / POINTS_PER_GENE as real;
      Vertex(Chord(phase1, phase2, i, f), level, LerpColor(f, dom, rec), l.alpha, l.rotation)
  }

  /** The first vertex of a spoke followed by its interior vertices 1 .. j - 1,
      each twice (the end of one segment and the start of the next). */
  function SpokeOpening(genes: seq<Gene>, active: int, l: Layout, phase1: real, phase2: real,
                        spoke: nat, j: nat): (vs: seq<Vertex>)
    requires spoke < |genes| && 1 <= j <= POINTS_PER_GENE
    ensures |vs| == 2 * j - 1
  {
    if j == 1 then [SpokePoint(genes, active, l, phase1, phase2, spoke, 0)]
    else
      var v := SpokePoint(genes, active, l, phase1, phase2, spoke, j - 1);
      SpokeOpening(genes, active, l, phase1, phase2, spoke, j - 1) + [v, v]
  }

  /** The vertices of the spoke of gene `spoke`, in emission order. */
  function Spoke(genes: seq<Gene>, active: int, l: Layout, phase1: real, phase2: real,
                 spoke: nat): (vs: seq<Vertex>)
    requires spoke < |genes|
    ensures |vs| == 2 * POINTS_PER_GENE
  {
    SpokeOpening(genes, active, l, phase1, phase2, spoke, POINTS_PER_GENE)
      + [SpokePoint(genes, active, l, phase1, phase2, spoke, POINTS_PER_GENE)]
  }

  /** The vertices of the spokes of the first `n` genes, in emission order. */
  function Spokes(genes: seq<Gene>, active: int, l: Layout, phase1: real, phase2: real,
                  n: nat): seq<Vertex>
    requires n <= |genes|
  {
    if n == 0 then [] else
      Spokes(genes, active, l, phase1, phase2, n - 1) + Spoke(genes, active, l, phase1, phase2, n - 1)
  }

  /** Draws one spoke per gene, appending 2 * POINTS_PER_GENE vertices for each. */
  method DrawSpokes(genes: seq<Gene>, active: int, l: Layout, phase1: real, phase2: real,
                    builder: VertexBuilder)
    modifies builder
    ensures builder.vertices == old(builder.vertices) + Spokes(genes, active, l, phase1, phase2, |genes|)
  {
    for spoke := 0 to |genes|
      invariant builder.vertices == old(builder.vertices) + Spokes(genes, active, l, phase1, phase2, spoke)
    {
      // Find the equivalent point index
      var i := spoke * POINTS_PER_GENE + POINTS_PER_GENE / 2;
      // Find positions
      var p1, p2 := Rim(phase1, i), Rim(phase2, i);
      var level := POINTS_PER_GENE * |genes| - i;
      // Find colours
      var dom := GetColor(genes[spoke], active == spoke, true);
      var rec := GetColor(genes[spoke], active == spoke, false);
      ghost var before := builder.vertices;
      // First vertex of the first segment
      builder.AddVertex(Vertex(p1, level, dom, l.alpha, l.rotation));
      assert builder.vertices == before + SpokeOpening(genes, active, l, phase1, phase2, spoke, 1);
      for j := 1 to POINTS_PER_GENE
        invariant builder.vertices == before + SpokeOpening(genes, active, l, phase1, phase2, spoke, j)
      {
        var f := j as real / POINTS_PER_GENE as real;
        var v := Vertex(Chord(phase1, phase2, i, f), level, LerpColor(f, dom, rec), l.alpha, l.rotation);
        // Second vertex of the previous segment
        builder.AddVertex(v);
        // First vertex of the next segment
        builder.AddVertex(v);
        assert v == SpokePoint(genes, active, l, phase1, phase2, spoke, j);
        assert builder.vertices == before + SpokeOpening(genes, active, l, phase1, phase2, spoke, j + 1);
      }
      // Second vertex of the last segment
      builder.AddVertex(Vertex(p2, level, rec, l.alpha, l.rotation));
      assert builder.vertices == before + Spoke(genes, active, l, phase1, phase2, spoke);
      assert builder.vertices == old(builder.vertices) + Spokes(genes, active, l, phase1, phase2, spoke + 1);
    }
  }

  /** The opening of a spoke up to interior vertex j - 1 is 2j - 1 vertices:
      the first vertex, then interior vertex m at positions 2m - 1 and 2m. */
  lemma {:induction false} SpokeOpeningLayout(genes: seq<Gene>, active: int, l: Layout, phase1: real,
                                              phase2: real, spoke: nat, j: nat)
    requires spoke < |genes| && 1 <= j <= POINTS_PER_GENE
    ensures var vs := SpokeOpening(genes, active, l, phase1, phase2, spoke, j);
      && |vs| == 2 * j - 1
      && vs[0] == SpokePoint(genes, active, l, phase1, phase2, spoke, 0)
      && forall m :: 1 <= m < j ==>
           vs[2 * m - 1] == vs[2 * m] == SpokePoint(genes, active, l, phase1, phase2, spoke, m)
  {
    if j > 1 {
      SpokeOpeningLayout(genes, active, l, phase1, phase2, spoke, j - 1);
    }
  }

  /** The spokes of `n` genes are 2 * POINTS_PER_GENE vertices each, laid out gene by gene. */
  lemma {:induction false} SpokesLayout(genes: seq<Gene>, active: int, l: Layout, phase1: real,
                                        phase2: real, n: nat)
    requires n <= |genes|
    ensures |Spokes(genes, active, l, phase1, phase2, n)| == 2 * POINTS_PER_GENE * n
    ensures forall s, r :: 0 <= s < n && 0 <= r < 2 * POINTS_PER_GENE ==>
      Spokes(genes, active, l, phase1, phase2, n)[2 * POINTS_PER_GENE * s + r]
        == Spoke(genes, active, l, phase1, phase2, s)[r]
  {
    if n > 0 {
      SpokesLayout(genes, active, l, phase1, phase2, n - 1);
      var earlier := Spokes(genes, active, l, phase1, phase2, n - 1);
      var last := Spoke(genes, active, l, phase1, phase2, n - 1);
      assert Spokes(genes, active, l, phase1, phase2, n) == earlier + last;
      forall s, r | 0 <= s < n && 0 <= r < 2 * POINTS_PER_GENE
        ensures Spokes(genes, active, l, phase1, phase2, n)[2 * POINTS_PER_GENE * s + r]
             == Spoke(genes, active, l, phase1, phase2, s)[r]
      {
        if s < n - 1 {
          assert 2 * POINTS_PER_GENE * s + r < |earlier|;
        } else {
          assert 2 * POINTS_PER_GENE * s + r == |earlier| + r;
        }
      }
    }
  }

  /** A spoke is level at its gene's middle point, starts on strand 1 in the
      gene's dominant colour, ends on strand 2 in its recessive colour, and
      emits each interior vertex j (1 .. POINTS_PER_GENE - 1) twice, j / 10 of
      the way along, with the colour j / 10 of the way from dominant to recessive. */
  lemma SpokeShape(genes: seq<Gene>, active: int, l: Layout, phase1: real, phase2: real,
                   spoke: nat, j: nat)
    requires spoke < |genes| && 1 <= j < POINTS_PER_GENE
    ensures |Spoke(genes, active, l, phase1, phase2, spoke)| == 2 * POINTS_PER_GENE
    ensures var vs := Spoke(genes, active, l, phase1, phase2, spoke);
      var dom := StrandColor(genes, active, true, spoke);
      var rec := StrandColor(genes, active, false, spoke);
      && (forall r :: 0 <= r < |vs| ==>
            vs[r].level == POINTS_PER_GENE * (|genes| - spoke) - 5)
      && vs[0].place == Rim(phase1, SpokeStep(spoke)) && vs[0].color == dom
      && vs[2 * POINTS_PER_GENE - 1].place == Rim(phase2, SpokeStep(spoke))
      && vs[2 * POINTS_PER_GENE - 1].color == rec
      && vs[2 * j - 1] == vs[2 * j]
      && vs[2 * j].place == Chord(phase1, phase2, SpokeStep(spoke), j as real / 10.0)
      && vs[2 * j].color == LerpColor(j as real / 10.0, dom, rec)
  {
    SpokeOpeningLayout(genes, active, l, phase1, phase2, spoke, POINTS_PER_GENE);
    var vs := Spoke(genes, active, l, phase1, phase2, spoke);
    forall r | 0 <= r < |vs|
      ensures vs[r].level == POINTS_PER_GENE * (|genes| - spoke) - 5
    {
      if r == 0 {
      } else if r < 2 * POINTS_PER_GENE - 1 {
        assert vs[r] == SpokePoint(genes, active, l, phase1, phase2, spoke, (r + 1) / 2);
      }
    }
  }

  /** A spoke's ends lie at the places of the strand vertices in the middle of
      its gene (helix corner POINTS_PER_GENE * spoke + 5 of each strand), but one
      height step below them. */
  lemma SpokeEndsBelowStrands(genes: seq<Gene>, active: int, l: Layout, trig: Trig,
                              phase1: real, phase2: real, spoke: nat)
    requires spoke < |genes|
    ensures |Spoke(genes, active, l, phase1, phase2, spoke)| == 2 * POINTS_PER_GENE
    ensures var vs := Spoke(genes, active, l, phase1, phase2, spoke);
      var points := POINTS_PER_GENE * |genes|;
      var k := 2 * SpokeStep(spoke) - 1;
      var w1 := HelixVertex(genes, active, l, phase1, points, true, k);
      var w2 := HelixVertex(genes, active, l, phase2, points, false, k);
      var c0 := Coordinates(l, trig, vs[0]);
      var c1 := Coordinates(l, trig, vs[2 * POINTS_PER_GENE - 1]);
      && c0.x == Coordinates(l, trig, w1).x && c0.z == Coordinates(l, trig, w1).z
      && c1.x == Coordinates(l, trig, w2).x && c1.z == Coordinates(l, trig, w2).z
      && c0.y == Coordinates(l, trig, w1).y - l.dHeight
      && c1.y == Coordinates(l, trig, w2).y - l.dHeight
  {
    SpokeOpeningLayout(genes, active, l, phase1, phase2, spoke, POINTS_PER_GENE);
    var vs := Spoke(genes, active, l, phase1, phase2, spoke);
    var points := POINTS_PER_GENE * |genes|;
    var i := SpokeStep(spoke);
    var k := 2 * i - 1;
    assert (k + 1) / 2 == i;
    assert vs[0] == SpokePoint(genes, active, l, phase1, phase2, spoke, 0);
    assert vs[2 * POINTS_PER_GENE - 1] == SpokePoint(genes, active, l, phase1, phase2, spoke, POINTS_PER_GENE);
    var w1 := HelixVertex(genes, active, l, phase1, points, true, k);
    var w2 := HelixVertex(genes, active, l, phase2, points, false, k);
    PlaceFixesXZ(l, trig, vs[0], w1);
    PlaceFixesXZ(l, trig, vs[2 * POINTS_PER_GENE - 1], w2);
  }

  // ---------------------------------------------------------------------------
  // The double helix

  /** The rotation about the vertical axis that brings the selected gene (and
      the transition towards its neighbour) to the front. */
  function Rotation(index: int, transition: real): real {
    (index as real + transition) * RADIANS_PER_GENE
  }

  /** The rotation depends on the cursor only through index + transition. */
  lemma RotationDependsOnSum(index1: int, transition1: real, index2: int, transition2: real)
    requires index1 as real + transition1 == index2 as real + transition2
    ensures Rotation(index1, transition1) == Rotation(index2, transition2)
  {
  }

  /** Nothing is drawn for an empty genome or a flat helix. */
  predicate Degenerate(genes: seq<Gene>, radius: real, height: real) {
    |genes| == 0 || radius == 0.0 || height == 0.0
  }

  /** The helix properties one rendering call derives from its arguments. */
  function HelixLayout(genes: seq<Gene>, index: int, transition: real,
                       radius: real, height: real, alpha: real): Layout
    requires |genes| > 0
  {
    var points := POINTS_PER_GENE * |genes|;
    Layout(radius, height / points as real, -RADIANS_PER_GENE / POINTS_PER_GENE as real,
           Rotation(index, transition), alpha)
  }

  /** Everything one rendering call emits: the dominant strand, the recessive
      strand half a turn further round, then the spokes. */
  function DoubleHelix(genes: seq<Gene>, index: int, transition: real,
                       radius: real, height: real, alpha: real): seq<Vertex>
  {
    if Degenerate(genes, radius, height) then [] else
      var l := HelixLayout(genes, index, transition, radius, height, alpha);
      var points := POINTS_PER_GENE * |genes|;
      var angleOffset := RADIANS_PER_GENE / 2.0;
      HelixVertices(genes, index, l, angleOffset, points, true)
      + HelixVertices(genes, index, l, PI + angleOffset, points, false)
      + Spokes(genes, index, l, angleOffset, PI + angleOffset, |genes|)
  }

  /** Renders a genome as a double helix rotated so that gene `index` faces
      front, moving smoothly towards its neighbour with `transition`. */
  method RenderDoubleHelix(genes: seq<Gene>, builder: VertexBuilder, index: int,
                           transition: real, radius: real, height: real, alpha: real)
    modifies builder
    ensures builder.vertices
         == old(builder.vertices) + DoubleHelix(genes, index, transition, radius, height, alpha)
  {
    // Define helix properties
    var count := |genes|;
    if count == 0 || radius == 0.0 || height == 0.0 {
      return;
    }
    var points := POINTS_PER_GENE * count;
    var heightStep := height / points as real;
    var angleStep := -RADIANS_PER_GENE / POINTS_PER_GENE as real;
    var angleOffset := RADIANS_PER_GENE / 2.0;
    var rotation := (index as real + transition) * RADIANS_PER_GENE;
    var l := Layout(radius, heightStep, angleStep, rotation, alpha);
    assert l == HelixLayout(genes, index, transition, radius, height, alpha);
    // First helix
    DrawHelix(genes, index, l, angleOffset, points, builder, true);
    // Second helix
    DrawHelix(genes, index, l, PI + angleOffset, points, builder, false);
    // Spokes
    DrawSpokes(genes, index, l, angleOffset, PI + angleOffset, builder);
  }

  /** A call emits nothing exactly when the input is degenerate, and otherwise
      exactly 60 vertices per gene: 2 * POINTS_PER_GENE per gene on each strand
      and 2 * POINTS_PER_GENE per spoke. */
  lemma DoubleHelixCount(genes: seq<Gene>, index: int, transition: real,
                         radius: real, height: real, alpha: real)
    ensures var vs := DoubleHelix(genes, index, transition, radius, height, alpha);
      && (vs == [] <==> Degenerate(genes, radius, height))
      && (!Degenerate(genes, radius, height) ==> |vs| == 60 * |genes|)
  {
    if !Degenerate(genes, radius, height) {
      var l := HelixLayout(genes, index, transition, radius, height, alpha);
      var angleOffset := RADIANS_PER_GENE / 2.0;
      var points := POINTS_PER_GENE * |genes|;
      StrandLayout(genes, index, l, angleOffset, points, true, points);
      StrandLayout(genes, index, l, PI + angleOffset, points, false, points);
      SpokesLayout(genes, index, l, angleOffset, PI + angleOffset, |genes|);
    }
  }

  /** The two strands are emitted vertex for vertex alike, except that the
      second lies half a turn (PI) further round and is coloured with the
      recessive instead of the dominant colours. */
  lemma StrandsHalfTurnApart(genes: seq<Gene>, index: int, transition: real,
                             radius: real, height: real, alpha: real, k: nat)
    requires !Degenerate(genes, radius, height) && k < 20 * |genes|
    ensures |DoubleHelix(genes, index, transition, radius, height, alpha)| == 60 * |genes|
    ensures var vs := DoubleHelix(genes, index, transition, radius, height, alpha);
      var k2 := 20 * |genes| + k;
      && vs[k].place.Rim? && vs[k].place.phase == RADIANS_PER_GENE / 2.0
      && vs[k2].place == Rim(vs[k].place.phase + PI, vs[k].place.step)
      && vs[k2].level == vs[k].level
      && vs[k].color == PointColor(genes, index, true, k / 2)
      && vs[k2].color == PointColor(genes, index, false, k / 2)
  {
    var l := HelixLayout(genes, index, transition, radius, height, alpha);
    var angleOffset := RADIANS_PER_GENE / 2.0;
    var points := POINTS_PER_GENE * |genes|;
    DoubleHelixStrands(genes, index, transition, radius, height, alpha, k);
    StrandVertexAt(genes, index, l, angleOffset, points, true, k);
    StrandVertexAt(genes, index, l, PI + angleOffset, points, false, k);
  }

  /** The first 20 * count vertices of a double helix are strand 1, the next
      20 * count strand 2. */
  lemma DoubleHelixStrands(genes: seq<Gene>, index: int, transition: real,
                           radius: real, height: real, alpha: real, k: nat)
    requires !Degenerate(genes, radius, height) && k < 20 * |genes|
    ensures |DoubleHelix(genes, index, transition, radius, height, alpha)| == 60 * |genes|
    ensures var vs := DoubleHelix(genes, index, transition, radius, height, alpha);
      var l := HelixLayout(genes, index, transition, radius, height, alpha);
      var angleOffset := RADIANS_PER_GENE / 2.0;
      var points := POINTS_PER_GENE * |genes|;
      && |HelixVertices(genes, index, l, angleOffset, points, true)| == 20 * |genes|
      && |HelixVertices(genes, index, l, PI + angleOffset, points, false)| == 20 * |genes|
      && vs[k] == HelixVertices(genes, index, l, angleOffset, points, true)[k]
      && vs[20 * |genes| + k] == HelixVertices(genes, index, l, PI + angleOffset, points, false)[k]
  {
    DoubleHelixCount(genes, index, transition, radius, height, alpha);
    var l := HelixLayout(genes, index, transition, radius, height, alpha);
    var angleOffset := RADIANS_PER_GENE / 2.0;
    var points := POINTS_PER_GENE * |genes|;
    StrandVertexAt(genes, index, l, angleOffset, points, true, k);
    StrandVertexAt(genes, index, l, PI + angleOffset, points, false, k);
    var first := HelixVertices(genes, index, l, angleOffset, points, true);
    var second := HelixVertices(genes, index, l, PI + angleOffset, points, false);
    var vs := DoubleHelix(genes, index, transition, radius, height, alpha);
    assert vs == first + second + Spokes(genes, index, l, angleOffset, PI + angleOffset, |genes|);
  }

  /** Every emitted vertex carries the caller's alpha unchanged and the
      rotation (index + transition) * RADIANS_PER_GENE. */
  lemma DoubleHelixUniform(genes: seq<Gene>, index: int, transition: real,
                           radius: real, height: real, alpha: real)
    ensures forall v :: v in DoubleHelix(genes, index, transition, radius, height, alpha) ==>
      v.alpha == alpha && v.rotation == (index as real + transition) * RADIANS_PER_GENE
  {
    if !Degenerate(genes, radius, height) {
      var l := HelixLayout(genes, index, transition, radius, height, alpha);
      var angleOffset := RADIANS_PER_GENE / 2.0;
      var points := POINTS_PER_GENE * |genes|;
      var n := |genes|;
      StrandLayout(genes, index, l, angleOffset, points, true, points);
      StrandLayout(genes, index, l, PI + angleOffset, points, false, points);
      SpokesLayout(genes, index, l, angleOffset, PI + angleOffset, n);
      var vs := DoubleHelix(genes, index, transition, radius, height, alpha);
      forall m | 0 <= m < |vs|
        ensures vs[m].alpha == alpha && vs[m].rotation == l.rotation
      {
        if m >= 4 * points {
          var s, r := (m - 4 * points) / (2 * POINTS_PER_GENE), (m - 4 * points) % (2 * POINTS_PER_GENE);
          assert m - 4 * points == 2 * POINTS_PER_GENE * s + r;
          SpokeShapeUniform(genes, index, l, angleOffset, PI + angleOffset, s, r);
        }
      }
    }
  }

  /** Every vertex of a spoke carries the layout's alpha and rotation. */
  lemma SpokeShapeUniform(genes: seq<Gene>, active: int, l: Layout, phase1: real, phase2: real,
                          spoke: nat, r: nat)
    requires spoke < |genes| && r < 2 * POINTS_PER_GENE
    ensures |Spoke(genes, active, l, phase1, phase2, spoke)| == 2 * POINTS_PER_GENE
    ensures Spoke(genes, active, l, phase1, phase2, spoke)[r].alpha == l.alpha
    ensures Spoke(genes, active, l, phase1, phase2, spoke)[r].rotation == l.rotation
  {
    SpokeOpeningLayout(genes, active, l, phase1, phase2, spoke, POINTS_PER_GENE);
    var vs := Spoke(genes, active, l, phase1, phase2, spoke);
    if 0 < r < 2 * POINTS_PER_GENE - 1 {
      assert vs[r] == SpokePoint(genes, active, l, phase1, phase2, spoke, (r + 1) / 2);
    }
  }
}
