/**
 * The plot page (components/PlotsPage.tsx): each plot's moisture-corrected
 * bag count and productivity, and the plots grouped by crop.
 */
module PlotsPage {
  import opened Folds
  import opened Types
  import opened Moisture
  import opened Crops

  /** The net bags of one load, with the `|| 14` moisture default. */
  function LoadNetBags(l: HarvestLoad): (r: real)
    ensures r * BagKg == NetWeight(l.data.weightKg, l.data.moisturePercent)
  {
    NetBags(l.data.weightKg, Defaulted(l.data.moisturePercent))
  }

  /** `getPlotStats(...).netBags`: the corrected bags of the loads from one plot. */
  function PlotNetBags(loads: seq<HarvestLoad>, plotId: int): real {
    Sum(Select(loads, LoadPlot, plotId), LoadNetBags)
  }

  /** `area > 0 ? netBags / area : 0`. */
  function Productivity(netBags: real, area: real): (r: real)
    ensures area > 0.0 ==> r * area == netBags
    ensures area <= 0.0 ==> r == 0.0
  {
    if area > 0.0 then netBags / area else 0.0
  }

  datatype PlotStats = PlotStats(productivity: real, netBags: real)

  /** `getPlotStats(plotId, area)`. */
  function GetPlotStats(loads: seq<HarvestLoad>, plotId: int, area: real): (r: PlotStats)
    ensures r.netBags == PlotNetBags(loads, plotId)
    ensures area > 0.0 ==> r.productivity * area == r.netBags
    ensures area <= 0.0 ==> r.productivity == 0.0
  {
    var bags := PlotNetBags(loads, plotId);
    PlotStats(Productivity(bags, area), bags)
  }

  /** A new load changes a plot's bags by its own net bags if it is from that plot, else not at all. */
  lemma PlotNetBagsSnoc(loads: seq<HarvestLoad>, l: HarvestLoad, plotId: int)
    ensures PlotNetBags(loads + [l], plotId)
         == PlotNetBags(loads, plotId) + (if l.data.plotId == plotId then LoadNetBags(l) else 0.0)
  {
    SumSelectSnoc(loads, l, LoadPlot, plotId, LoadNetBags);
  }

  /** Loads from other plots have no effect, wherever they sit in the list. */
  lemma PlotNetBagsIgnoresOtherPlots(before: seq<HarvestLoad>, others: seq<HarvestLoad>,
                                     after: seq<HarvestLoad>, plotId: int)
    requires forall l :: l in others ==> l.data.plotId != plotId
    ensures PlotNetBags(before + others + after, plotId) == PlotNetBags(before + after, plotId)
  {
    SelectAppend(before + others, after, LoadPlot, plotId);
    SelectAppend(before, others, LoadPlot, plotId);
    SelectAppend(before, after, LoadPlot, plotId);
    SelectNone(others, LoadPlot, plotId);
    assert Select(before, LoadPlot, plotId) + [] == Select(before, LoadPlot, plotId);
  }

  /** The bags do not depend on the order of the loads. */
  lemma PlotNetBagsPermutation(a: seq<HarvestLoad>, b: seq<HarvestLoad>, plotId: int)
    requires multiset(a) == multiset(b)
    ensures PlotNetBags(a, plotId) == PlotNetBags(b, plotId)
  {
    SelectPermutation(a, b, LoadPlot, plotId);
    SumPermutation(Select(a, LoadPlot, plotId), Select(b, LoadPlot, plotId), LoadNetBags);
  }

  // ----- groupedPlots -----

  /** One entry of `groupedPlots`: a crop key and its plots. */
  datatype Group = Group(crop: string, members: seq<Plot>)

  function GroupCrop(g: Group): string { g.crop }

  function GroupKeys(gs: seq<Group>): seq<string> {
    KeysOf(gs, GroupCrop)
  }

  /** `acc[crop].push(plot)` on every group with key `k`. */
  function Push(gs: seq<Group>, k: string, p: Plot): (r: seq<Group>)
    ensures |r| == |gs|
    ensures forall i :: 0 <= i < |gs| ==>
      r[i] == if gs[i].crop == k then Group(k, gs[i].members + [p]) else gs[i]
  {
    seq(|gs|, i requires 0 <= i < |gs| =>
      if gs[i].crop == k then Group(k, gs[i].members + [p]) else gs[i])
  }

  /** `plots.reduce(...)` into `Record<string, Plot[]>`, in insertion order. */
  function GroupPlots(plots: seq<Plot>): seq<Group>
    decreases |plots|
  {
    if |plots| == 0 then []
    else
      var gs := GroupPlots(plots[..|plots| - 1]);
      var p := plots[|plots| - 1];
      var k := PlotCrop(p);
      if k in GroupKeys(gs) then Push(gs, k, p) else gs + [Group(k, [p])]
  }

  /** The plots whose bucket is `k`, in their original order. */
  function PlotsWithCrop(plots: seq<Plot>, k: string): (r: seq<Plot>)
    ensures forall p :: p in r ==> p in plots && PlotCrop(p) == k
    ensures forall p :: p in plots && PlotCrop(p) == k ==> p in r
    decreases |plots|
  {
    if |plots| == 0 then []
    else
      var p := plots[|plots| - 1];
      PlotsWithCrop(plots[..|plots| - 1], k) + (if PlotCrop(p) == k then [p] else [])
  }

  /** The number of plots over all groups. */
  function MemberCount(gs: seq<Group>): nat
    decreases |gs|
  {
    if |gs| == 0 then 0 else MemberCount(gs[..|gs| - 1]) + |gs[|gs| - 1].members|
  }

  /**
   * The grouping, against an independent description: one group per crop
   * key in first-seen order, holding exactly the plots of that key in their
   * original order.
   */
  lemma {:induction false} GroupPlotsSpec(plots: seq<Plot>)
    ensures GroupKeys(GroupPlots(plots)) == SeenKeys(plots)
    ensures forall i :: 0 <= i < |GroupPlots(plots)| ==>
              GroupPlots(plots)[i].members == PlotsWithCrop(plots, GroupPlots(plots)[i].crop)
    decreases |plots|
  {
    if |plots| > 0 {
      var P := plots[..|plots| - 1];
      var p := plots[|plots| - 1];
      GroupPlotsSpec(P);
      var gs := GroupPlots(P);
      var k := PlotCrop(p);
      var r := GroupPlots(plots);
      if k in GroupKeys(gs) {
        assert r == Push(gs, k, p);
        assert GroupKeys(r) == GroupKeys(gs);
        forall i | 0 <= i < |r| ensures r[i].members == PlotsWithCrop(plots, r[i].crop) {
          var c := gs[i].crop;
          assert PlotsWithCrop(plots, c) == PlotsWithCrop(P, c) + (if k == c then [p] else []);
        }
      } else {
        assert r == gs + [Group(k, [p])];
        assert GroupKeys(r) == GroupKeys(gs) + [k];
        assert PlotsWithCrop(P, k) == [] by {
          var s := PlotsWithCrop(P, k);
          if |s| > 0 {
            assert s[0] in P;
            var j :| 0 <= j < |P| && P[j] == s[0];
            PlotCropSeen(P, j);
          }
        }
        forall i | 0 <= i < |r| ensures r[i].members == PlotsWithCrop(plots, r[i].crop) {
          var c := r[i].crop;
          assert PlotsWithCrop(plots, c) == PlotsWithCrop(P, c) + (if k == c then [p] else []);
          if i < |gs| {
            assert GroupKeys(gs)[i] == c;
          }
        }
      }
    }
  }

  lemma {:induction false} PushAbsent(gs: seq<Group>, k: string, p: Plot)
    requires k !in GroupKeys(gs)
    ensures Push(gs, k, p) == gs
  {
    assert forall i :: 0 <= i < |gs| ==> gs[i].crop != k;
  }

  /** With unique keys, pushing a plot into an existing group adds one member overall. */
  lemma {:induction false} PushCount(gs: seq<Group>, k: string, p: Plot)
    requires Unique(GroupKeys(gs))
    requires k in GroupKeys(gs)
    ensures MemberCount(Push(gs, k, p)) == MemberCount(gs) + 1
    decreases |gs|
  {
    var n := |gs|;
    var gs' := gs[..n - 1];
    var g := gs[n - 1];
    var r := Push(gs, k, p);
    assert r[..n - 1] == Push(gs', k, p);
    assert GroupKeys(gs) == GroupKeys(gs') + [g.crop];
    if g.crop == k {
      assert k !in GroupKeys(gs');
      PushAbsent(gs', k, p);
    } else {
      assert Unique(GroupKeys(gs'));
      PushCount(gs', k, p);
    }
  }

  /** Grouping partitions the plots: no plot is lost or duplicated. */
  lemma {:induction false} GroupPlotsCount(plots: seq<Plot>)
    ensures MemberCount(GroupPlots(plots)) == |plots|
    decreases |plots|
  {
    if |plots| > 0 {
      var P := plots[..|plots| - 1];
      var p := plots[|plots| - 1];
      GroupPlotsCount(P);
      var gs := GroupPlots(P);
      var k := PlotCrop(p);
      if k in GroupKeys(gs) {
        GroupPlotsSpec(P);
        SeenKeysSpec(P);
        PushCount(gs, k, p);
      } else {
        var r := gs + [Group(k, [p])];
        assert r[..|r| - 1] == gs;
      }
    }
  }

  /**
   * Every plot sits in exactly one group: the one whose key is its crop.
   * Keys are unique and in first-seen order.
   */
  lemma GroupsPartitionPlots(plots: seq<Plot>)
    ensures Unique(GroupKeys(GroupPlots(plots)))
    ensures forall p :: p in plots ==> PlotCrop(p) in GroupKeys(GroupPlots(plots))
    ensures forall i, p :: 0 <= i < |GroupPlots(plots)| && p in plots ==>
              (p in GroupPlots(plots)[i].members <==> GroupPlots(plots)[i].crop == PlotCrop(p))
    ensures forall i, j :: 0 <= i < j < |GroupPlots(plots)| ==>
              FirstIndex(plots, GroupPlots(plots)[i].crop) < FirstIndex(plots, GroupPlots(plots)[j].crop)
  {
    GroupPlotsSpec(plots);
    SeenKeysSpec(plots);
    forall p | p in plots ensures PlotCrop(p) in GroupKeys(GroupPlots(plots)) {
      var j :| 0 <= j < |plots| && plots[j] == p;
      PlotCropSeen(plots, j);
    }
  }
}
