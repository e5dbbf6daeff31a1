# AgriCraft genome renderer and growth stages in Dafny

This project models two parts of AgriCraft, a Minecraft farming mod:

- **The genome renderer** (`genome_renderer.dfy`, module `GenomeRenderer`).
  It draws a plant's genome as a double helix of GL line segments.
  - One strand carries the dominant colours and the other the recessive colours.
  - Each strand has `POINTS_PER_GENE = 10` sample points per gene.
  - Each gene also gets one spoke joining the two strands.
  - Only the selected ("active") gene is coloured. Every other gene is drawn in the inactive grey `(0.15, 0.15, 0.15)`.
  - Along a strand, the colour blends linearly from one gene's midpoint to the next gene's midpoint.

  How the renderer is modelled:
  - The vertex builder is a `VertexBuilder` object. Its field `vertices` holds every vertex emitted so far.
  - The three emitters are methods that append to it: `RenderDoubleHelix`, `DrawHelix` and `DrawSpokes`.
  - Each method is proved to append exactly the sequence a specification function describes: `DoubleHelix`, `HelixVertices` or `Spokes`.
  - The lemmas state what those sequences look like.

  How vertex positions are modelled:
  - A vertex's position is symbolic: a place round the vertical axis and a height counted in height steps.
  - The place is `Rim(phase, step)`: the helix circle at angle `step * dAngle + phase`.
  - Or it is `Chord(phase1, phase2, step, f)`: a fraction `f` of the way between two such points.
  - `Coordinates` turns a vertex into x, y, z with the host's cosine and sine, which are left as uninterpreted parameters.

  One geometric fact the model makes explicit (`SpokeEndsBelowStrands`):
  - A spoke is drawn at the helix point in the middle of its gene. Its ends are at the same angle as the strand vertex there.
  - But it sits one height step lower. The strand vertex is the end of segment `i - 1`, at height `dHeight * (points - i + 1)`. The spoke is at `dHeight * (points - i)`.
  - This is how the code is written (lines 136 and 157), and the model keeps it.

- **Growth stages** (`growth_stage.dfy`, module `GrowthStages`).
  - A plant moves through a chain of growth stages. The stages a plant uses form a table, and a stage's successor is an index into that table.
  - The predicate `Valid` collects what the interface documents:
    - the next stage is never missing, so it is an index inside the table;
    - the growth percentage lies in [0, 1];
    - a growth stage is mature exactly when it is its own next stage;
    - a growth stage's percentage is 1 exactly when it is mature;
    - the no-plant placeholder (the one stage whose `isGrowthStage` is false) is its own next stage and is never mature, since it stands for no plant at all; as 1 means mature, its percentage stays below 1.
  - The interface only says "returns itself if this is the final growth stage" and "1 means mature". Each states one direction only. For growth stages the model reads both as if-and-only-if statements; that reading is the model's, not the interface's.
  - `Advance` iterates the next stage. The lemmas show that:
    - iterating never leaves the table;
    - mature stages are fixed points;
    - ticks compose;
    - maturity is permanent.

## Model

All source paths are under `src/main/java/com/infinityraider/agricraft/`; the table writes them out in full.

| member | source | states |
|---|---|---|
| GenomeRenderer.VertexBuilder.AddVertex | src/main/java/com/infinityraider/agricraft/render/plant/AgriGenomeRenderer.java:182-186 | adding a vertex appends exactly that vertex to the builder's vertices and changes nothing else |
| GenomeRenderer.GetColor | src/main/java/com/infinityraider/agricraft/render/plant/AgriGenomeRenderer.java:188-194 | a colour other than the inactive grey is only ever given to the active gene; the active gene gets its dominant colour on the dominant strand and its recessive colour on the other |
| GenomeRenderer.StrandColorOfGene | src/main/java/com/infinityraider/agricraft/render/plant/AgriGenomeRenderer.java:188-194 | the active gene has its dominant colour on the dominant strand and its recessive colour on the recessive strand; every other gene is inactive grey on both strands |
| GenomeRenderer.PointColor | src/main/java/com/infinityraider/agricraft/render/plant/AgriGenomeRenderer.java:110-133 | the colour of helix point i as the strand loop computes it; its meaning is stated by PointColorBetweenMidpoints and the colour lemmas below |
| GenomeRenderer.PointColorBetweenMidpoints | src/main/java/com/infinityraider/agricraft/render/plant/AgriGenomeRenderer.java:110-133 | every point's colour is lerp(f, C(lo), C(hi)). Here lo is the gene whose midpoint is the last at or before the point, hi is the next gene (clamped to the last one) and f is the distance past lo's midpoint in tenths. Before the first midpoint f is 0, so those points have the first gene's colour |
| GenomeRenderer.StrandBlendsBetweenMidpoints | src/main/java/com/infinityraider/agricraft/render/plant/AgriGenomeRenderer.java:110-133 | from the midpoint of gene k (point 10k+5) to the midpoint of gene k+1, point 10k+5+t has colour lerp(t/10, colour of gene k, colour of gene k+1). This covers the previous-gene blend for partial < 5 with f = (partial+5)/10, the next-gene blend for partial > 5 with f = (partial−5)/10, and the unblended midpoint |
| GenomeRenderer.StrandClampedAtEnds | src/main/java/com/infinityraider/agricraft/render/plant/AgriGenomeRenderer.java:117-133 | neighbour indices are clamped: up to point 5 a strand has the first gene's colour, and from the last gene's midpoint on it has the last gene's colour |
| GenomeRenderer.SingleGeneStrand | src/main/java/com/infinityraider/agricraft/render/plant/AgriGenomeRenderer.java:117-133 | with one gene, every point of a strand has that gene's strand colour |
| GenomeRenderer.ActiveGeneMidpoint | src/main/java/com/infinityraider/agricraft/render/plant/AgriGenomeRenderer.java:110-113 | at its midpoint the active gene shows its own dominant or recessive colour, unblended |
| GenomeRenderer.GreyOutsideActiveWindow | src/main/java/com/infinityraider/agricraft/render/plant/AgriGenomeRenderer.java:110-133 | every point more than a gene's length away from the active gene's span (i ≤ 10a−5 or i ≥ 10a+15) is inactive grey |
| GenomeRenderer.ActiveOutOfRangeIsGrey | src/main/java/com/infinityraider/agricraft/render/plant/AgriGenomeRenderer.java:110-133 | an active index outside [0, count) makes every point of both strands inactive grey |
| GenomeRenderer.Coordinates | src/main/java/com/infinityraider/agricraft/render/plant/AgriGenomeRenderer.java:153-168 | a vertex's y is dHeight times its level. A rim place has x, z = radius·cos, radius·sin of −(step·dAngle + phase), computed by the helper OnRim. A chord's x and z are lerped between two rim points, so it runs from the first rim point (f = 0) to the second (f = 1) |
| GenomeRenderer.PlaceFixesXZ | src/main/java/com/infinityraider/agricraft/render/plant/AgriGenomeRenderer.java:135-137 | two vertices at the same place have the same x and z, and their heights differ by whole height steps |
| GenomeRenderer.StrandLayout | src/main/java/com/infinityraider/agricraft/render/plant/AgriGenomeRenderer.java:108-145 | the first n segments of a strand are 2n vertices. Vertex k lies at helix corner (k+1)/2 and has the colour of point k/2, so point i belongs to gene i/10 |
| GenomeRenderer.DetermineColor | src/main/java/com/infinityraider/agricraft/render/plant/AgriGenomeRenderer.java:109-133 | the strand loop's colour computation (own gene, blended with the clamped previous or next gene) yields exactly the colour PointColor assigns to helix point i |
| GenomeRenderer.StrandVertexAt | src/main/java/com/infinityraider/agricraft/render/plant/AgriGenomeRenderer.java:135-140 | vertex k of a strand lies at place Rim(phase, (k+1)/2), at that helix corner's height, in the colour of point k/2 |
| GenomeRenderer.DrawHelix | src/main/java/com/infinityraider/agricraft/render/plant/AgriGenomeRenderer.java:103-146 | the strand loop appends exactly the strand's vertex sequence, 2·points vertices, to the builder |
| GenomeRenderer.HelixChained | src/main/java/com/infinityraider/agricraft/render/plant/AgriGenomeRenderer.java:138-144 | segment i starts at the place and height where segment i−1 ended; both of its vertices share point i's colour and carry the caller's alpha and rotation |
| GenomeRenderer.HelixHeights | src/main/java/com/infinityraider/agricraft/render/plant/AgriGenomeRenderer.java:105-107 | the strand starts at angle step 0 and height points. Segment i ends i+1 steps round at height points−i, so segment 0 is flat and the last segment ends one height step above the base |
| GenomeRenderer.Spoke | src/main/java/com/infinityraider/agricraft/render/plant/AgriGenomeRenderer.java:164-178 | a spoke is 2·POINTS_PER_GENE = 20 vertices |
| GenomeRenderer.SpokeOpeningLayout | src/main/java/com/infinityraider/agricraft/render/plant/AgriGenomeRenderer.java:165-176 | the first vertex comes first; after it, interior vertex j is emitted twice, at positions 2j−1 and 2j |
| GenomeRenderer.SpokesLayout | src/main/java/com/infinityraider/agricraft/render/plant/AgriGenomeRenderer.java:150-179 | the spokes of n genes are 20n vertices, laid out gene by gene |
| GenomeRenderer.DrawSpokes | src/main/java/com/infinityraider/agricraft/render/plant/AgriGenomeRenderer.java:148-180 | the nested spoke loops append exactly the spokes' vertex sequence to the builder |
| GenomeRenderer.SpokeShape | src/main/java/com/infinityraider/agricraft/render/plant/AgriGenomeRenderer.java:150-179 | a spoke lies at height step 10·count − (10s+5). Its first vertex is on strand 1 in the dominant colour and its last is on strand 2 in the recessive colour. Interior vertex j appears twice, j/10 of the way along, with colour lerp(j/10, dominant, recessive) |
| GenomeRenderer.SpokeEndsBelowStrands | src/main/java/com/infinityraider/agricraft/render/plant/AgriGenomeRenderer.java:152-159 | a spoke's end vertices have the x and z of the strand vertices at helix corner 10s+5, with y exactly one height step lower |
| GenomeRenderer.RotationDependsOnSum | src/main/java/com/infinityraider/agricraft/render/plant/AgriGenomeRenderer.java:80 | the rotation (index + transition)·RADIANS_PER_GENE depends on the cursor only through index + transition |
| GenomeRenderer.RenderDoubleHelix | src/main/java/com/infinityraider/agricraft/render/plant/AgriGenomeRenderer.java:67-101 | one rendering call appends exactly the double helix's vertex sequence. The sequence is empty when the input is degenerate; otherwise it is strand 1, then strand 2, then the spokes |
| GenomeRenderer.DoubleHelixCount | src/main/java/com/infinityraider/agricraft/render/plant/AgriGenomeRenderer.java:71-97 | nothing is emitted if and only if the genome is empty, the radius is 0 or the height is 0; otherwise exactly 60·count vertices are emitted |
| GenomeRenderer.DoubleHelixStrands | src/main/java/com/infinityraider/agricraft/render/plant/AgriGenomeRenderer.java:92-97 | of the 60·count vertices, the first 20·count are strand 1 and the next 20·count are strand 2, vertex for vertex |
| GenomeRenderer.StrandsHalfTurnApart | src/main/java/com/infinityraider/agricraft/render/plant/AgriGenomeRenderer.java:92-95 | vertex k of strand 2 lies at the place of vertex k of strand 1 shifted by PI, at the same height. Strand 1 starts at phase RADIANS_PER_GENE/2 and uses the dominant colours; strand 2 uses the recessive colours |
| GenomeRenderer.DoubleHelixUniform | src/main/java/com/infinityraider/agricraft/render/plant/AgriGenomeRenderer.java:80-97 | every emitted vertex carries the caller's alpha and the rotation (index + transition)·RADIANS_PER_GENE |
| GenomeRenderer.SpokeShapeUniform | src/main/java/com/infinityraider/agricraft/render/plant/AgriGenomeRenderer.java:165-178 | every vertex of a spoke carries the layout's alpha and rotation |
| GrowthStages.IsMature | src/main/java/com/infinityraider/agricraft/api/v1/crop/IAgriGrowthStage.java:8-11 | a stage is mature if and only if it is a growth stage and its next stage is itself |
| GrowthStages.NextStage | src/main/java/com/infinityraider/agricraft/api/v1/crop/IAgriGrowthStage.java:18-22 | the next stage is never missing (it lies in the table). For a growth stage it is the stage itself exactly when the stage is mature; the placeholder is always its own next stage |
| GrowthStages.GrowthPercentage | src/main/java/com/infinityraider/agricraft/api/v1/crop/IAgriGrowthStage.java:24-28 | the growth percentage is between 0 and 1 inclusive; it is 1 only at a mature stage ("1 means mature"), and for a growth stage it is 1 exactly when the stage is mature |
| GrowthStages.IsGrowthStage | src/main/java/com/infinityraider/agricraft/api/v1/crop/IAgriGrowthStage.java:30-36 | only the no-plant placeholder is not a growth stage: such a stage is its own next stage and never mature, while on a growth stage maturity is being its own next stage |
| GrowthStages.NoPlantStaysPut | src/main/java/com/infinityraider/agricraft/api/v1/crop/IAgriGrowthStage.java:30-36 | the no-plant placeholder stays where it is under any number of ticks, never becomes mature and keeps a growth percentage below 1 |
| GrowthStages.Advance | src/main/java/com/infinityraider/agricraft/api/v1/crop/IAgriGrowthStage.java:18-22 | following the next stage any number of times stays inside the table |
| GrowthStages.MatureIsFixedPoint | src/main/java/com/infinityraider/agricraft/api/v1/crop/IAgriGrowthStage.java:18-22 | from a mature stage, any number of growth ticks stays at that stage |
| GrowthStages.AdvanceAdd | src/main/java/com/infinityraider/agricraft/api/v1/crop/IAgriGrowthStage.java:18-22 | m ticks followed by n ticks reach the same stage as m+n ticks |
| GrowthStages.MaturityIsPermanent | src/main/java/com/infinityraider/agricraft/api/v1/crop/IAgriGrowthStage.java:8-28 | once a plant reaches a mature stage, every later tick leaves it there, mature and at growth percentage 1 |
| GrowthStages.ImmatureStageMoves | src/main/java/com/infinityraider/agricraft/api/v1/crop/IAgriGrowthStage.java:8-28 | a growth stage that is not mature has a growth percentage below 1 and moves to a different stage at the next tick, whose percentage is again in [0, 1] |
| GrowthStages.ThreeStageCropValid | src/main/java/com/infinityraider/agricraft/api/v1/crop/IAgriGrowthStage.java:8-28 | the no-plant placeholder beside a sprout, growing and mature crop keeps every promise of the interface, so the promises can be met together |

## Left out

- Float arithmetic: colours, fractions and heights are exact reals, so float rounding is not modelled.
  - `PI` is the exact value of `(float) Math.PI`.
  - `0.15F` is taken as the real 0.15.
- Cosine and sine (`MathHelper.cos`/`sin`) are uninterpreted parameters (`Trig`), so positions are kept symbolic and only `Coordinates` turns them into numbers.
- The matrix stack, the `Quaternion` rotation and the `IVertexBuilder`/`Matrix4f` calls are not modelled:
  - each vertex records the rotation its matrix was built with;
  - the builder is a sequence of vertex records.
- `getRenderType` and `LineRenderType` are not modelled: they set up GL render state (line width, blending, depth test) and no vertex data.
- `getInstance` (the singleton accessor) is not modelled.
- The `IAgriRegisterable` members of a growth stage are not modelled.
- Genes: a gene is reduced to its two visualisation colours. Alleles and the rest of the gene pair are not modelled.
- GrowthStages.Valid: for growth stages, requires the percentage to be 1 exactly when the stage is mature, and next to be the stage itself exactly when it is mature. The interface states only one direction of each in words. It also fixes the no-plant placeholder as its own next stage, never mature and below percentage 1; the interface says only that it is not a growth stage, and its "1 means mature" is what keeps the placeholder below 1.
- Growth stages: percentage monotonicity along the chain and catalogue validation are not modelled.
- GrowthStages.CanDropSeed: the source promises nothing about the flag, so it is a plain field with no contract.
- Java `int` arithmetic: `POINTS_PER_GENE * count` (line 76), `spoke*POINTS_PER_GENE` (line 152) and `POINTS_PER_GENE * genePairs.size()` (line 157) wrap around to negative values above 214,748,364 genes. The model uses unbounded integers, so it describes genomes below that size only.
- TheOneProbeCompat registers a The One Probe info provider that adds the crop's, genome's and soil's text lines to the probe tooltip. This glue draws nothing and is not part of this model.
