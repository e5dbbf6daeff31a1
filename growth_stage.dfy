/*
  Growth stages of a plant.

  A plant moves through a chain of growth stages: each stage knows whether it
  is mature, whether a plant in it drops its seed when broken, how far grown it
  is (a fraction between 0 and 1) and which stage follows it after a
  successful growth tick. A mature stage is its own successor.

  The stages a plant uses are modelled as a table: a stage is an entry of the
  table and its successor is an index into the same table, so "the next stage
  is never null" becomes "the next index lies inside the table". The promises
  every stage makes are collected in the predicate Valid.
*/
module GrowthStages {

  /** One growth stage. NoPlant is the placeholder stage used when nothing is
      planted; every other stage is a GrowthStage. */
  datatype Stage =
    | GrowthStage(mature: bool, canDropSeed: bool, percentage: real, next: nat)
    | NoPlant(mature: bool, canDropSeed: bool, percentage: real, next: nat)

  /** The promises a table of stages keeps: every successor is a stage of the
      table and every growth percentage lies between 0 and 1. A growth stage
      is mature exactly when it is its own successor, and its percentage is 1
      exactly when it is mature. The no-plant placeholder is never mature, is
      its own successor and, since 1 means mature, stays below 1. */
  ghost predicate Valid(table: seq<Stage>) {
    forall i :: 0 <= i < |table| ==>
      && table[i].next < |table|
      && 0.0 <= table[i].percentage <= 1.0
      && (table[i].GrowthStage? ==>
            && (table[i].mature <==> table[i].next == i)
            && (table[i].percentage == 1.0 <==> table[i].mature))
      && (table[i].NoPlant? ==>
            table[i].next == i && !table[i].mature && table[i].percentage < 1.0)
  }

  /** The stage after a successful growth tick: always a stage of the table;
      a growth stage gives itself exactly when it is mature, and the
      placeholder always gives itself. */
  function NextStage(table: seq<Stage>, i: nat): (j: nat)
    requires Valid(table) && i < |table|
    ensures j < |table|
    ensures table[i].GrowthStage? ==> (j == i <==> table[i].mature)
    ensures table[i].NoPlant? ==> j == i
  {
    table[i].next
  }

  /** Whether stage `i` is mature: a growth stage with no further growth stage. */
  function IsMature(table: seq<Stage>, i: nat): (r: bool)
    requires Valid(table) && i < |table|
    ensures r ==> table[i].GrowthStage? && NextStage(table, i) == i
    ensures table[i].GrowthStage? && NextStage(table, i) == i ==> r
  {
    table[i].mature
  }

  /** Whether a plant in stage `i` drops its seed when broken. */
  function CanDropSeed(table: seq<Stage>, i: nat): bool
    requires i < |table|
  {
    table[i].canDropSeed
  }

  /** How far grown stage `i` is: between 0 and 1 inclusive; 1 only at a
      mature stage, and for a growth stage 1 exactly when it is mature. */
  function GrowthPercentage(table: seq<Stage>, i: nat): (p: real)
    requires Valid(table) && i < |table|
    ensures 0.0 <= p <= 1.0
    ensures p == 1.0 ==> IsMature(table, i)
    ensures table[i].GrowthStage? ==> (p == 1.0 <==> IsMature(table, i))
  {
    table[i].percentage
  }

  /** Whether stage `i` is an actual growth stage; only the placeholder used
      when nothing is planted is not. A stage that is not a growth stage stays
      where it is and is never mature; on a growth stage, maturity is being
      one's own next stage. */
  function IsGrowthStage(table: seq<Stage>, i: nat): (r: bool)
    requires Valid(table) && i < |table|
    ensures !r ==> NextStage(table, i) == i && !IsMature(table, i)
    ensures r ==> (IsMature(table, i) <==> NextStage(table, i) == i)
  {
    !table[i].NoPlant?
  }

  /** The stage reached from stage `i` after `n` successful growth ticks. */
  function Advance(table: seq<Stage>, i: nat, n: nat): (j: nat)
    requires Valid(table) && i < |table|
    ensures j < |table|
    decreases n
  {
    if n == 0 then i else Advance(table, NextStage(table, i), n - 1)
  }

  /** A mature stage stays where it is, however many ticks follow. */
  lemma {:induction false} MatureIsFixedPoint(table: seq<Stage>, i: nat, n: nat)
    requires Valid(table) && i < |table| && IsMature(table, i)
    ensures Advance(table, i, n) == i
  {
    if n > 0 {
      MatureIsFixedPoint(table, i, n - 1);
    }
  }

  /** Ticks compose: m ticks followed by n more reach the stage m + n ticks reach. */
  lemma {:induction false} AdvanceAdd(table: seq<Stage>, i: nat, m: nat, n: nat)
    requires Valid(table) && i < |table|
    ensures Advance(table, i, m + n) == Advance(table, Advance(table, i, m), n)
    decreases m
  {
    if m > 0 {
      AdvanceAdd(table, NextStage(table, i), m - 1, n);
    }
  }

  /** Once a plant is mature it stays mature, at growth percentage 1. */
  lemma MaturityIsPermanent(table: seq<Stage>, i: nat, m: nat, n: nat)
    requires Valid(table) && i < |table| && IsMature(table, Advance(table, i, m))
    ensures Advance(table, i, m + n) == Advance(table, i, m)
    ensures IsMature(table, Advance(table, i, m + n))
    ensures GrowthPercentage(table, Advance(table, i, m + n)) == 1.0
  {
    AdvanceAdd(table, i, m, n);
    MatureIsFixedPoint(table, Advance(table, i, m), n);
  }

  /** A growth stage that is not mature moves on at the next tick, and the
      stage it moves to is again a stage of the table with a percentage in
      [0, 1]. */
  lemma ImmatureStageMoves(table: seq<Stage>, i: nat)
    requires Valid(table) && i < |table| && IsGrowthStage(table, i) && !IsMature(table, i)
    ensures Advance(table, i, 1) != i
    ensures 0.0 <= GrowthPercentage(table, Advance(table, i, 1)) <= 1.0
    ensures GrowthPercentage(table, i) < 1.0
  {
  }

  /** The no-plant placeholder never grows and never becomes mature, and its
      growth percentage stays below 1. */
  lemma {:induction false} NoPlantStaysPut(table: seq<Stage>, i: nat, n: nat)
    requires Valid(table) && i < |table| && !IsGrowthStage(table, i)
    ensures Advance(table, i, n) == i
    ensures !IsMature(table, Advance(table, i, n))
    ensures GrowthPercentage(table, Advance(table, i, n)) < 1.0
  {
    if n > 0 {
      NoPlantStaysPut(table, i, n - 1);
    }
  }

  /** The no-plant placeholder next to a three-stage crop (sprout, growing,
      mature) keeps every promise. */
  lemma ThreeStageCropValid()
    ensures Valid([
      NoPlant(false, false, 0.0, 0),
      GrowthStage(false, false, 0.0, 2),
      GrowthStage(false, true, 0.5, 3),
      GrowthStage(true, true, 1.0, 3)])
  {
  }
}
