/** The five threshold bucketizers of the loader (popularity, energy,
    danceability, duration and tempo). Each is written as the if-chain of the
    loader, and each is shown to agree with one general definition: a Scale of
    ascending upper bounds, where a value falls in the bucket numbered by how
    many bounds lie strictly below it. */
module Buckets {

  /** Ascending upper bounds, each closing its bucket on the right, and one
      label per bucket: the last bucket has no upper bound. */
  datatype Scale = Scale(bounds: seq<real>, labels: seq<string>)
  {
    ghost predicate Valid()
    {
      && |labels| == |bounds| + 1
      && Ascending(bounds)
      && forall i, j :: 0 <= i < j < |labels| ==> labels[i] != labels[j]
    }
  }

  ghost predicate Ascending(bounds: seq<real>)
  {
    forall i, j :: 0 <= i < j < |bounds| ==> bounds[i] < bounds[j]
  }

  /** The number of bounds strictly below x: the index of x's bucket. */
  function Rank(bounds: seq<real>, x: real): (k: nat)
    ensures k <= |bounds|
  {
    if bounds == [] then 0
    else (if bounds[0] < x then 1 else 0) + Rank(bounds[1..], x)
  }

  /** x lies in bucket i: strictly above the bound closing bucket i - 1 and at
      or below the bound closing bucket i. */
  ghost predicate InBucket(bounds: seq<real>, i: nat, x: real)
  {
    && i <= |bounds|
    && (i == 0 || bounds[i - 1] < x)
    && (i == |bounds| || x <= bounds[i])
  }

  /** The label a scale gives to x. */
  function LabelOf(s: Scale, x: real): string
    requires |s.labels| == |s.bounds| + 1
  {
    s.labels[Rank(s.bounds, x)]
  }

  /** Over ascending bounds, x lies in the bucket its rank names. */
  lemma {:induction false} RankInBucket(bounds: seq<real>, x: real)
    requires Ascending(bounds)
    ensures InBucket(bounds, Rank(bounds, x), x)
  {
    if bounds != [] {
      var tail := bounds[1..];
      assert Ascending(tail) by {
        forall i, j | 0 <= i < j < |tail| ensures tail[i] < tail[j] {
          assert tail[i] == bounds[i + 1] && tail[j] == bounds[j + 1];
        }
      }
      RankInBucket(tail, x);
      var k := Rank(tail, x);
      if k > 0 {
        assert tail[k - 1] == bounds[k];
      }
    }
  }

  /** Over ascending bounds, no value lies in two buckets. */
  lemma InBucketUnique(bounds: seq<real>, i: nat, j: nat, x: real)
    requires Ascending(bounds)
    requires InBucket(bounds, i, x) && InBucket(bounds, j, x)
    ensures i == j
  {
  }

  /** Every value receives exactly one label of a valid scale: label i
      exactly when the value lies in bucket i. */
  lemma ExactlyOneLabel(s: Scale, x: real, i: nat)
    requires s.Valid() && i < |s.labels|
    ensures LabelOf(s, x) == s.labels[i] <==> InBucket(s.bounds, i, x)
  {
    RankInBucket(s.bounds, x);
    if InBucket(s.bounds, i, x) {
      InBucketUnique(s.bounds, i, Rank(s.bounds, x), x);
    }
  }

  /** A larger value never has a smaller rank. */
  lemma {:induction false} RankMonotone(bounds: seq<real>, x: real, y: real)
    requires x <= y
    ensures Rank(bounds, x) <= Rank(bounds, y)
  {
    if bounds != [] {
      RankMonotone(bounds[1..], x, y);
    }
  }

  /** Bucket indices are non-decreasing in the bucketized value. */
  lemma Monotone(s: Scale, x: real, y: real, i: nat, j: nat)
    requires s.Valid() && x <= y && i < |s.labels| && j < |s.labels|
    requires LabelOf(s, x) == s.labels[i] && LabelOf(s, y) == s.labels[j]
    ensures i <= j
  {
    RankMonotone(s.bounds, x, y);
  }

  /** Shows that x of rank k lies in no other bucket: the step the concrete
      agreement lemmas use. */
  lemma RankIs(bounds: seq<real>, x: real, k: nat)
    requires Ascending(bounds) && InBucket(bounds, k, x)
    ensures Rank(bounds, x) == k
  {
    RankInBucket(bounds, x);
    InBucketUnique(bounds, k, Rank(bounds, x), x);
  }

  // ---------------------------------------------------------------- popularity

  /** Popularity buckets. The lowest bound, 0, isolates 'Sem dados': for an
      integer popularity p >= 0, p <= 0 means p == 0. */
  const PopularityScale: Scale := Scale(
    [0.0, 20.0, 40.0, 60.0, 80.0],
    ["Sem dados", "Baixa (1-20)", "Média-baixa (21-40)", "Média (41-60)",
     "Alta (61-80)", "Muito Alta (81-100)"])

  function CategorizePopularity(pop: int): (category: string)
    ensures category in PopularityScale.labels
  {
    if pop == 0 then "Sem dados"
    else if pop <= 20 then "Baixa (1-20)"
    else if pop <= 40 then "Média-baixa (21-40)"
    else if pop <= 60 then "Média (41-60)"
    else if pop <= 80 then "Alta (61-80)"
    else "Muito Alta (81-100)"
  }

  lemma PopularityScaleValid()
    ensures PopularityScale.Valid()
  {
  }

  /** The popularity if-chain agrees with its scale on every non-negative
      popularity; a negative popularity, outside the dataset's range, lands
      in 'Baixa (1-20)' because the chain tests `== 0` before `<= 20`. */
  lemma PopularityMatchesScale(pop: int)
    ensures pop >= 0 ==> CategorizePopularity(pop) == LabelOf(PopularityScale, pop as real)
    ensures pop < 0 ==> CategorizePopularity(pop) == "Baixa (1-20)"
  {
    var b := PopularityScale.bounds;
    var x := pop as real;
    if pop >= 0 {
      var k := if pop == 0 then 0 else if pop <= 20 then 1 else if pop <= 40 then 2
               else if pop <= 60 then 3 else if pop <= 80 then 4 else 5;
      RankIs(b, x, k);
    }
  }

  // ---------------------------------------------------------------- energy

  const EnergyScale: Scale := Scale(
    [0.3, 0.6],
    ["Baixa energia", "Média energia", "Alta energia"])

  function CategorizeEnergy(energy: real): (category: string)
    ensures category in EnergyScale.labels
  {
    if energy <= 0.3 then "Baixa energia"
    else if energy <= 0.6 then "Média energia"
    else "Alta energia"
  }

  lemma EnergyScaleValid()
    ensures EnergyScale.Valid()
  {
  }

  lemma EnergyMatchesScale(energy: real)
    ensures CategorizeEnergy(energy) == LabelOf(EnergyScale, energy)
  {
    var k := if energy <= 0.3 then 0 else if energy <= 0.6 then 1 else 2;
    RankIs(EnergyScale.bounds, energy, k);
  }

  // ---------------------------------------------------------------- danceability

  const DanceabilityScale: Scale := Scale(
    [0.3, 0.6],
    ["Pouco dançável", "Moderadamente dançável", "Muito dançável"])

  function CategorizeDanceability(dance: real): (category: string)
    ensures category in DanceabilityScale.labels
  {
    if dance <= 0.3 then "Pouco dançável"
    else if dance <= 0.6 then "Moderadamente dançável"
    else "Muito dançável"
  }

  lemma DanceabilityScaleValid()
    ensures DanceabilityScale.Valid()
  {
  }

  lemma DanceabilityMatchesScale(dance: real)
    ensures CategorizeDanceability(dance) == LabelOf(DanceabilityScale, dance)
  {
    var k := if dance <= 0.3 then 0 else if dance <= 0.6 then 1 else 2;
    RankIs(DanceabilityScale.bounds, dance, k);
  }

  // ---------------------------------------------------------------- duration

  const DurationScale: Scale := Scale(
    [2.0, 3.5, 5.0, 7.0],
    ["Muito curta (≤2min)", "Curta (2-3.5min)", "Média (3.5-5min)",
     "Longa (5-7min)", "Muito longa (>7min)"])

  /** Buckets a duration given in minutes. */
  function CategorizeDuration(minutes: real): (category: string)
    ensures category in DurationScale.labels
  {
    if minutes <= 2.0 then "Muito curta (≤2min)"
    else if minutes <= 3.5 then "Curta (2-3.5min)"
    else if minutes <= 5.0 then "Média (3.5-5min)"
    else if minutes <= 7.0 then "Longa (5-7min)"
    else "Muito longa (>7min)"
  }

  lemma DurationScaleValid()
    ensures DurationScale.Valid()
  {
  }

  lemma DurationMatchesScale(minutes: real)
    ensures CategorizeDuration(minutes) == LabelOf(DurationScale, minutes)
  {
    var k := if minutes <= 2.0 then 0 else if minutes <= 3.5 then 1
             else if minutes <= 5.0 then 2 else if minutes <= 7.0 then 3 else 4;
    RankIs(DurationScale.bounds, minutes, k);
  }

  // ---------------------------------------------------------------- tempo

  const TempoScale: Scale := Scale(
    [70.0, 100.0, 120.0, 140.0],
    ["Muito Lento (≤70)", "Lento (71-100)", "Moderado (101-120)",
     "Rápido (121-140)", "Muito Rápido (>140)"])

  /** Buckets a tempo given in beats per minute. */
  function CategorizeTempo(bpm: real): (category: string)
    ensures category in TempoScale.labels
  {
    if bpm <= 70.0 then "Muito Lento (≤70)"
    else if bpm <= 100.0 then "Lento (71-100)"
    else if bpm <= 120.0 then "Moderado (101-120)"
    else if bpm <= 140.0 then "Rápido (121-140)"
    else "Muito Rápido (>140)"
  }

  lemma TempoScaleValid()
    ensures TempoScale.Valid()
  {
  }

  lemma TempoMatchesScale(bpm: real)
    ensures CategorizeTempo(bpm) == LabelOf(TempoScale, bpm)
  {
    var k := if bpm <= 70.0 then 0 else if bpm <= 100.0 then 1
             else if bpm <= 120.0 then 2 else if bpm <= 140.0 then 3 else 4;
    RankIs(TempoScale.bounds, bpm, k);
  }

  // ---------------------------------------------------------------- boundaries

  /** Boundary values fall in the lower-named bucket. */
  lemma BoundariesGoDown()
    ensures CategorizePopularity(0) == "Sem dados"
    ensures CategorizePopularity(1) == "Baixa (1-20)"
    ensures CategorizePopularity(20) == "Baixa (1-20)"
    ensures CategorizePopularity(40) == "Média-baixa (21-40)"
    ensures CategorizePopularity(60) == "Média (41-60)"
    ensures CategorizePopularity(80) == "Alta (61-80)"
    ensures CategorizePopularity(81) == "Muito Alta (81-100)"
    ensures CategorizeEnergy(0.3) == "Baixa energia"
    ensures CategorizeEnergy(0.6) == "Média energia"
    ensures CategorizeDanceability(0.3) == "Pouco dançável"
    ensures CategorizeDanceability(0.6) == "Moderadamente dançável"
    ensures CategorizeDuration(2.0) == "Muito curta (≤2min)"
    ensures CategorizeDuration(3.5) == "Curta (2-3.5min)"
    ensures CategorizeDuration(5.0) == "Média (3.5-5min)"
    ensures CategorizeDuration(7.0) == "Longa (5-7min)"
    ensures CategorizeTempo(65.0) == "Muito Lento (≤70)"
    ensures CategorizeTempo(70.0) == "Muito Lento (≤70)"
    ensures CategorizeTempo(100.0) == "Lento (71-100)"
    ensures CategorizeTempo(120.0) == "Moderado (101-120)"
    ensures CategorizeTempo(71.0) == "Lento (71-100)"
    ensures CategorizeTempo(140.0) == "Rápido (121-140)"
    ensures CategorizeTempo(141.0) == "Muito Rápido (>140)"
  {
  }
}
