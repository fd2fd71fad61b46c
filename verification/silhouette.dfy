/**
 * The bookkeeping of `computeSilhouetteCoefficient`: for each intermediate level of the
 * aggregation hierarchy, the regions are labelled by the position of their group and the
 * silhouette score of that labelling is stored at position k - 2 of the score list. The
 * score itself (`metrics.silhouette_score` over the precomputed distance matrix) is a
 * parameter `score` of the model.
 */
module Silhouette {
  import opened Wrappers

  /** One level of the aggregation dict: its number of groups `k` and its groups (name -> regions), in dict order. */
  datatype Level = Level(k: int, groups: seq<Named<seq<string>>>)

  /** The two lists the function keeps across levels. */
  datatype Bookkeeping = Bookkeeping(scores: seq<real>, labels: seq<nat>)

  /** `len(range(1, n - 1))`. */
  function ScoreCount(n: nat): nat
  {
    if n >= 2 then n - 2 else 0
  }

  /** `[0 for i in range(1, n_regions - 1)]`. */
  function InitialScores(n: nat): (r: seq<real>)
    ensures |r| == ScoreCount(n) && forall s :: 0 <= s < |r| ==> r[s] == 0.0
  {
    seq(ScoreCount(n), s => 0.0)
  }

  /** `[0 for i in range(n_regions)]`. */
  function InitialLabels(n: nat): (r: seq<nat>)
    ensures |r| == n
  {
    seq(n, i => 0)
  }

  /**
   * Position `i` of a Python list of length `len` (a negative `i` counts from the end); an
   * IndexError when there is none.
   */
  function ListIndex(len: nat, i: int): (r: Result<nat>)
    ensures r.Ok? <==> -(len as int) <= i < len
    ensures r.Ok? ==> r.value < len && r.value as int == (if i < 0 then i + len else i)
    ensures r.Err? ==> r.error.IndexError?
  {
    if 0 <= i < len then Ok(i)
    else if -(len as int) <= i < 0 then Ok(i + len)
    else Err(IndexError("list assignment index out of range"))
  }

  // ---------------------------------------------------------------------------------------
  // Step 2: labelling one level
  // ---------------------------------------------------------------------------------------

  /** `regions_list.index(region)`: the first position of the region, or a ValueError when it is not listed. */
  function RegionIndex(regions: seq<string>, region: string): (r: Result<nat>)
    ensures r.Ok? <==> region in regions
    ensures r.Ok? ==> r.value < |regions| && regions[r.value] == region
    ensures r.Ok? ==> forall k :: 0 <= k < r.value ==> regions[k] != region
  {
    match IndexOf(regions, region)
    case None => Err(ValueError("region is not in list"))
    case Some(i) => Ok(i)
  }

  /** The first `j` regions of one group, each labelled `g` in turn. */
  function LabelMembers(labels: seq<nat>, regions: seq<string>, members: seq<string>, g: nat, j: nat): (r: Result<seq<nat>>)
    requires |labels| == |regions| && j <= |members|
    ensures r.Ok? ==> |r.value| == |labels|
  {
    if j == 0 then Ok(labels)
    else
      var prev :- LabelMembers(labels, regions, members, g, j - 1);
      var ind :- RegionIndex(regions, members[j - 1]);
      Ok(prev[ind := g])
  }

  /** The first `g` groups of a level, the regions of group `h` labelled `h`. */
  function LabelGroups(labels: seq<nat>, regions: seq<string>, groups: seq<Named<seq<string>>>, g: nat): (r: Result<seq<nat>>)
    requires |labels| == |regions| && g <= |groups|
    ensures r.Ok? ==> |r.value| == |labels|
  {
    if g == 0 then Ok(labels)
    else
      var prev :- LabelGroups(labels, regions, groups, g - 1);
      LabelMembers(prev, regions, groups[g - 1].value, g - 1, |groups[g - 1].value|)
  }

  /** Some of the first `j` regions of a group is listed at position `i` (first occurrence). */
  ghost predicate Hits(regions: seq<string>, members: seq<string>, j: nat, i: nat)
    requires j <= |members|
  {
    exists t :: 0 <= t < j && IndexOf(regions, members[t]) == Some(i)
  }

  /** The last of the first `g` groups that lists the region at position `i`, if any. */
  ghost function LastHit(regions: seq<string>, groups: seq<Named<seq<string>>>, i: nat, g: nat): (r: Option<nat>)
    requires g <= |groups|
    ensures r.None? <==> forall h :: 0 <= h < g ==> !Hits(regions, groups[h].value, |groups[h].value|, i)
    ensures r.Some? ==>
      && r.value < g && Hits(regions, groups[r.value].value, |groups[r.value].value|, i)
      && forall h :: r.value < h < g ==> !Hits(regions, groups[h].value, |groups[h].value|, i)
  {
    if g == 0 then None
    else if Hits(regions, groups[g - 1].value, |groups[g - 1].value|, i) then Some(g - 1)
    else LastHit(regions, groups, i, g - 1)
  }

  /**
   * Labelling the first `j` regions of a group fails exactly when one of them is not in
   * `regions_list`; otherwise it gives label `g` to the positions of those regions and
   * leaves every other label as it was.
   */
  lemma {:induction false} LabelMembersSpec(labels: seq<nat>, regions: seq<string>, members: seq<string>, g: nat, j: nat)
    requires |labels| == |regions| && j <= |members|
    ensures LabelMembers(labels, regions, members, g, j).Err? <==> exists t :: 0 <= t < j && members[t] !in regions
    ensures LabelMembers(labels, regions, members, g, j).Err? ==> LabelMembers(labels, regions, members, g, j).error.ValueError?
    ensures LabelMembers(labels, regions, members, g, j).Ok? ==> forall i :: 0 <= i < |labels| ==>
      LabelMembers(labels, regions, members, g, j).value[i] == if Hits(regions, members, j, i) then g else labels[i]
  {
    if j > 0 {
      LabelMembersSpec(labels, regions, members, g, j - 1);
      var r := LabelMembers(labels, regions, members, g, j);
      if r.Ok? {
        var ind := IndexOf(regions, members[j - 1]).value;
        forall i | 0 <= i < |labels|
          ensures r.value[i] == if Hits(regions, members, j, i) then g else labels[i]
        {
          if i != ind && Hits(regions, members, j, i) {
            var t :| 0 <= t < j && IndexOf(regions, members[t]) == Some(i);
            assert t < j - 1;
          }
        }
      }
    }
  }

  /**
   * Labelling the first `g` groups of a level fails exactly when one of their regions is
   * not in `regions_list`; otherwise each region position gets the position of the last of
   * those groups that lists it, and a position that none lists keeps its label.
   */
  lemma {:induction false} LabelGroupsSpec(labels: seq<nat>, regions: seq<string>, groups: seq<Named<seq<string>>>, g: nat)
    requires |labels| == |regions| && g <= |groups|
    ensures LabelGroups(labels, regions, groups, g).Err? <==>
      exists h, t :: 0 <= h < g && 0 <= t < |groups[h].value| && groups[h].value[t] !in regions
    ensures LabelGroups(labels, regions, groups, g).Err? ==> LabelGroups(labels, regions, groups, g).error.ValueError?
    ensures LabelGroups(labels, regions, groups, g).Ok? ==> forall i :: 0 <= i < |labels| ==>
      LabelGroups(labels, regions, groups, g).value[i]
        == match LastHit(regions, groups, i, g) case None => labels[i] case Some(h) => h
  {
    if g > 0 {
      LabelGroupsSpec(labels, regions, groups, g - 1);
      var prev := LabelGroups(labels, regions, groups, g - 1);
      if prev.Ok? {
        LabelMembersSpec(prev.value, regions, groups[g - 1].value, g - 1, |groups[g - 1].value|);
      }
    }
  }

  /** Within a level, a region listed in group g and in no later group gets label g. */
  lemma ListedRegionGetsGroup(labels: seq<nat>, regions: seq<string>, groups: seq<Named<seq<string>>>, g: nat, t: nat)
    requires |labels| == |regions| && g < |groups| && t < |groups[g].value|
    requires LabelGroups(labels, regions, groups, |groups|).Ok?
    requires forall h, u :: g < h < |groups| && 0 <= u < |groups[h].value| ==> groups[h].value[u] != groups[g].value[t]
    ensures groups[g].value[t] in regions
    ensures LabelGroups(labels, regions, groups, |groups|).value[IndexOf(regions, groups[g].value[t]).value] == g
  {
    LabelGroupsSpec(labels, regions, groups, |groups|);
    var region := groups[g].value[t];
    if region !in regions {
      assert false;
    }
    var i := IndexOf(regions, region).value;
    assert Hits(regions, groups[g].value, |groups[g].value|, i);
  }

  // ---------------------------------------------------------------------------------------
  // The levels
  // ---------------------------------------------------------------------------------------

  /** A level whose scores are computed: neither the first (k = n) nor the last (k = 1). */
  predicate Intermediate(n: nat, lv: Level)
  {
    lv.k != 1 && lv.k != n
  }

  /**
   * One iteration of the loop over `aggregation_dict`: the first and last levels are
   * skipped; any other relabels the regions (the labels of the previous level are where
   * it starts from) and stores the score of the labelling at `scores[k - 2]`.
   */
  function LevelStep(st: Bookkeeping, regions: seq<string>, lv: Level, score: seq<nat> -> real): (r: Result<Bookkeeping>)
    requires |st.labels| == |regions|
    ensures r.Ok? ==> |r.value.labels| == |st.labels| && |r.value.scores| == |st.scores|
  {
    if !Intermediate(|regions|, lv) then Ok(st)
    else
      var labels :- LabelGroups(st.labels, regions, lv.groups, |lv.groups|);
      var idx :- ListIndex(|st.scores|, lv.k - 2);
      Ok(Bookkeeping(st.scores[idx := score(labels)], labels))
  }

  /** The two lists after the first `v` levels. */
  function SilhouetteSpec(regions: seq<string>, levels: seq<Level>, score: seq<nat> -> real, v: nat): (r: Result<Bookkeeping>)
    requires v <= |levels|
    ensures r.Ok? ==> |r.value.scores| == ScoreCount(|regions|) && |r.value.labels| == |regions|
  {
    if v == 0 then Ok(Bookkeeping(InitialScores(|regions|), InitialLabels(|regions|)))
    else
      var st :- SilhouetteSpec(regions, levels, score, v - 1);
      LevelStep(st, regions, levels[v - 1], score)
  }

  /** Level `lv` stores its score at position `s`. */
  predicate Writes(n: nat, lv: Level, s: nat)
  {
    Intermediate(n, lv) && ListIndex(ScoreCount(n), lv.k - 2) == Ok(s)
  }

  lemma {:induction false} SpecOkBefore(regions: seq<string>, levels: seq<Level>, score: seq<nat> -> real, u: nat, v: nat)
    requires u <= v <= |levels|
    requires SilhouetteSpec(regions, levels, score, v).Ok?
    ensures SilhouetteSpec(regions, levels, score, u).Ok?
    decreases v - u
  {
    if u < v {
      SpecOkBefore(regions, levels, score, u, v - 1);
    }
  }

  /** A position no intermediate level writes keeps its 0, so levels absent from the dict leave 0. */
  lemma {:induction false} UnwrittenScoreIsZero(regions: seq<string>, levels: seq<Level>, score: seq<nat> -> real, v: nat, s: nat)
    requires v <= |levels| && s < ScoreCount(|regions|)
    requires SilhouetteSpec(regions, levels, score, v).Ok?
    requires forall u :: 0 <= u < v ==> !Writes(|regions|, levels[u], s)
    ensures SilhouetteSpec(regions, levels, score, v).value.scores[s] == 0.0
  {
    if v > 0 {
      UnwrittenScoreIsZero(regions, levels, score, v - 1, s);
    }
  }

  /**
   * The score at a position is the silhouette score of the labels of the last level that
   * writes it, as they stand after that level.
   */
  lemma {:induction false} ScoreOfLastWriter(regions: seq<string>, levels: seq<Level>, score: seq<nat> -> real, u: nat, v: nat, s: nat)
    requires u < v <= |levels|
    requires SilhouetteSpec(regions, levels, score, v).Ok?
    requires Writes(|regions|, levels[u], s)
    requires forall w :: u < w < v ==> !Writes(|regions|, levels[w], s)
    ensures SilhouetteSpec(regions, levels, score, u + 1).Ok?
    ensures SilhouetteSpec(regions, levels, score, v).value.scores[s]
      == score(SilhouetteSpec(regions, levels, score, u + 1).value.labels)
    decreases v - u
  {
    SpecOkBefore(regions, levels, score, u + 1, v);
    if v > u + 1 {
      ScoreOfLastWriter(regions, levels, score, u, v - 1, s);
    }
  }

  /**
   * An intermediate level relabels, starting from the labels the previous level left (the
   * list is never reset): a region position gets the position of the last group of the
   * level that lists it, and one that no group lists keeps its previous label.
   */
  lemma LevelLabels(regions: seq<string>, levels: seq<Level>, score: seq<nat> -> real, v: nat)
    requires v < |levels| && Intermediate(|regions|, levels[v])
    requires SilhouetteSpec(regions, levels, score, v + 1).Ok?
    ensures SilhouetteSpec(regions, levels, score, v).Ok?
    ensures forall i :: 0 <= i < |regions| ==>
      SilhouetteSpec(regions, levels, score, v + 1).value.labels[i]
        == match LastHit(regions, levels[v].groups, i, |levels[v].groups|)
           case None => SilhouetteSpec(regions, levels, score, v).value.labels[i]
           case Some(h) => h
  {
    var st := SilhouetteSpec(regions, levels, score, v).value;
    LabelGroupsSpec(st.labels, regions, levels[v].groups, |levels[v].groups|);
  }

  /** The first and last levels change nothing. */
  lemma SkippedLevel(regions: seq<string>, levels: seq<Level>, score: seq<nat> -> real, v: nat)
    requires v < |levels| && (levels[v].k == 1 || levels[v].k == |regions|)
    ensures SilhouetteSpec(regions, levels, score, v + 1) == SilhouetteSpec(regions, levels, score, v)
  {
  }

  /**
   * The result fails exactly when some level up to `v` fails: an intermediate level one of
   * whose regions is not in `regions_list` (ValueError) or whose k - 2 is no position of the
   * score list (IndexError).
   */
  lemma {:induction false} SilhouetteErrors(regions: seq<string>, levels: seq<Level>, score: seq<nat> -> real, v: nat)
    requires v <= |levels|
    ensures SilhouetteSpec(regions, levels, score, v).Err? <==> exists u :: 0 <= u < v && LevelFails(regions, levels[u])
  {
    if v > 0 {
      SilhouetteErrors(regions, levels, score, v - 1);
      var prev := SilhouetteSpec(regions, levels, score, v - 1);
      if prev.Ok? {
        LabelGroupsSpec(prev.value.labels, regions, levels[v - 1].groups, |levels[v - 1].groups|);
      }
    }
  }

  /** An intermediate level that lists an unknown region or whose k - 2 is out of range. */
  ghost predicate LevelFails(regions: seq<string>, lv: Level)
  {
    Intermediate(|regions|, lv)
    && ((exists h, t :: 0 <= h < |lv.groups| && 0 <= t < |lv.groups[h].value| && lv.groups[h].value[t] !in regions)
        || !(-(ScoreCount(|regions|) as int) <= lv.k - 2 < ScoreCount(|regions|)))
  }

  // ---------------------------------------------------------------------------------------
  // The loop
  // ---------------------------------------------------------------------------------------

  lemma {:induction false} MembersErrorStays(labels: seq<nat>, regions: seq<string>, members: seq<string>, g: nat, j: nat, e: Error)
    requires |labels| == |regions| && j <= |members|
    requires LabelMembers(labels, regions, members, g, j) == Err(e)
    ensures LabelMembers(labels, regions, members, g, |members|) == Err(e)
    decreases |members| - j
  {
    if j < |members| {
      MembersErrorStays(labels, regions, members, g, j + 1, e);
    }
  }

  lemma {:induction false} GroupsErrorStays(labels: seq<nat>, regions: seq<string>, groups: seq<Named<seq<string>>>, g: nat, e: Error)
    requires |labels| == |regions| && g <= |groups|
    requires LabelGroups(labels, regions, groups, g) == Err(e)
    ensures LabelGroups(labels, regions, groups, |groups|) == Err(e)
    decreases |groups| - g
  {
    if g < |groups| {
      GroupsErrorStays(labels, regions, groups, g + 1, e);
    }
  }

  lemma {:induction false} SpecErrorStays(regions: seq<string>, levels: seq<Level>, score: seq<nat> -> real, v: nat, e: Error)
    requires v <= |levels|
    requires SilhouetteSpec(regions, levels, score, v) == Err(e)
    ensures SilhouetteSpec(regions, levels, score, |levels|) == Err(e)
    decreases |levels| - v
  {
    if v < |levels| {
      SpecErrorStays(regions, levels, score, v + 1, e);
    }
  }

  /** Step 2 for one group: each of its regions gets label `g`. */
  method LabelGroup(labels: seq<nat>, regions: seq<string>, members: seq<string>, g: nat) returns (r: Result<seq<nat>>)
    requires |labels| == |regions|
    ensures r == LabelMembers(labels, regions, members, g, |members|)
  {
    var current := labels;
    var j := 0;
    while j < |members|
      invariant 0 <= j <= |members|
      invariant LabelMembers(labels, regions, members, g, j) == Ok(current)
    {
      var ind := RegionIndex(regions, members[j]);
      if ind.Err? {
        MembersErrorStays(labels, regions, members, g, j + 1, ind.error);
        return Err(ind.error);
      }
      current := current[ind.value := g];
      j := j + 1;
    }
    r := Ok(current);
  }

  /** Step 2 for one level: the groups in dict order, the label counting up from 0. */
  method LabelLevel(labels: seq<nat>, regions: seq<string>, groups: seq<Named<seq<string>>>) returns (r: Result<seq<nat>>)
    requires |labels| == |regions|
    ensures r == LabelGroups(labels, regions, groups, |groups|)
  {
    var current := labels;
    var lab := 0;
    while lab < |groups|
      invariant 0 <= lab <= |groups|
      invariant LabelGroups(labels, regions, groups, lab) == Ok(current)
    {
      var next := LabelGroup(current, regions, groups[lab].value, lab);
      if next.Err? {
        GroupsErrorStays(labels, regions, groups, lab + 1, next.error);
        return Err(next.error);
      }
      current := next.value;
      lab := lab + 1;
    }
    r := Ok(current);
  }

  /** One iteration of the loop over `aggregation_dict` (steps 1 to 3). */
  method RunLevel(scores: seq<real>, labels: seq<nat>, regions: seq<string>, lv: Level, score: seq<nat> -> real)
    returns (r: Result<Bookkeeping>)
    requires |labels| == |regions|
    ensures r == LevelStep(Bookkeeping(scores, labels), regions, lv, score)
  {
    if lv.k == 1 || lv.k == |regions| {
      return Ok(Bookkeeping(scores, labels));
    }
    var next := LabelLevel(labels, regions, lv.groups);
    if next.Err? {
      return Err(next.error);
    }
    var s := score(next.value);
    var idx := ListIndex(|scores|, lv.k - 2);
    if idx.Err? {
      return Err(idx.error);
    }
    r := Ok(Bookkeeping(scores[idx.value := s], next.value));
  }

  /**
   * The bookkeeping of `computeSilhouetteCoefficient(regions_list, distanceMatrix,
   * aggregation_dict)`, with `score(labels)` for the silhouette score of a labelling over
   * the distance matrix: the list of scores the levels leave, or the first error.
   */
  method ComputeSilhouetteCoefficient(regions: seq<string>, levels: seq<Level>, score: seq<nat> -> real)
    returns (r: Result<seq<real>>)
    ensures r.Err? <==> SilhouetteSpec(regions, levels, score, |levels|).Err?
    ensures r.Err? ==> r.error == SilhouetteSpec(regions, levels, score, |levels|).error
    ensures r.Ok? ==> r.value == SilhouetteSpec(regions, levels, score, |levels|).value.scores
  {
    var st := Bookkeeping(InitialScores(|regions|), InitialLabels(|regions|));
    var v := 0;
    while v < |levels|
      invariant 0 <= v <= |levels|
      invariant SilhouetteSpec(regions, levels, score, v) == Ok(st)
    {
      var next := RunLevel(st.scores, st.labels, regions, levels[v], score);
      if next.Err? {
        SpecErrorStays(regions, levels, score, v + 1, next.error);
        return Err(next.error);
      }
      st := next.value;
      v := v + 1;
    }
    r := Ok(st.scores);
  }
}
