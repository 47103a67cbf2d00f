/**
 * How plots fall into crop buckets, shared by the dashboard's per-crop
 * financials and the plot page's grouping: a plot's bucket is its
 * `crop_type`, or 'Indefinido' when that is empty, and buckets appear in
 * the order their crop is first seen among the plots.
 */
module Crops {
  import opened Folds
  import opened Types

  /** The bucket of plots without a crop. */
  const Undefined: string := "Indefinido"

  /** `crop_type || 'Indefinido'`. */
  function CropKey(crop: string): (r: string)
    ensures r != ""
    ensures crop != "" ==> r == crop
    ensures crop == "" ==> r == Undefined
  {
    if crop == "" then Undefined else crop
  }

  function PlotCrop(p: Plot): string {
    CropKey(p.data.cropType)
  }

  /** The keys of a keyed accumulator, in its order. */
  function KeysOf<E>(es: seq<E>, key: E -> string): (r: seq<string>)
    ensures |r| == |es|
    ensures forall i :: 0 <= i < |es| ==> r[i] == key(es[i])
  {
    seq(|es|, i requires 0 <= i < |es| => key(es[i]))
  }

  /** The crop keys of `plots` in first-seen order: the key order of the source's accumulator objects. */
  function SeenKeys(plots: seq<Plot>): seq<string>
    decreases |plots|
  {
    if |plots| == 0 then []
    else
      var ks := SeenKeys(plots[..|plots| - 1]);
      var k := PlotCrop(plots[|plots| - 1]);
      if k in ks then ks else ks + [k]
  }

  /** The index of the first plot whose bucket is `k`, or `|plots|` when there is none. */
  function FirstIndex(plots: seq<Plot>, k: string): (r: nat)
    ensures r <= |plots|
    ensures r < |plots| ==> PlotCrop(plots[r]) == k
    ensures forall j :: 0 <= j < r ==> PlotCrop(plots[j]) != k
  {
    var i := FindIndex(plots, (p: Plot) => PlotCrop(p) == k);
    if i == -1 then |plots| else i
  }

  /** Extending the plots by one moves no first occurrence that already existed. */
  lemma FirstIndexSnoc(plots: seq<Plot>, p: Plot, k: string)
    ensures FirstIndex(plots + [p], k)
         == if FirstIndex(plots, k) < |plots| then FirstIndex(plots, k)
            else if PlotCrop(p) == k then |plots| else |plots| + 1
  {
    var q := plots + [p];
    var i := FirstIndex(plots, k);
    assert forall j :: 0 <= j < |plots| ==> q[j] == plots[j];
    if i < |plots| {
      assert PlotCrop(q[i]) == k;
    } else if PlotCrop(p) == k {
      assert PlotCrop(q[|plots|]) == k;
    }
  }

  /**
   * The keys are exactly the buckets of the plots, each once, ordered by
   * where each is first seen.
   */
  lemma {:induction false} SeenKeysSpec(plots: seq<Plot>)
    ensures Unique(SeenKeys(plots))
    ensures forall k :: k in SeenKeys(plots) <==> FirstIndex(plots, k) < |plots|
    ensures forall i, j :: 0 <= i < j < |SeenKeys(plots)| ==>
              FirstIndex(plots, SeenKeys(plots)[i]) < FirstIndex(plots, SeenKeys(plots)[j])
    decreases |plots|
  {
    if |plots| > 0 {
      var P := plots[..|plots| - 1];
      var p := plots[|plots| - 1];
      assert plots == P + [p];
      SeenKeysSpec(P);
      var ks := SeenKeys(P);
      var k0 := PlotCrop(p);
      forall k ensures FirstIndex(plots, k)
                    == if FirstIndex(P, k) < |P| then FirstIndex(P, k)
                       else if k0 == k then |P| else |P| + 1
      {
        FirstIndexSnoc(P, p, k);
      }
    }
  }

  /** Every plot's bucket is among the keys. */
  lemma PlotCropSeen(plots: seq<Plot>, i: nat)
    requires i < |plots|
    ensures PlotCrop(plots[i]) in SeenKeys(plots)
  {
    SeenKeysSpec(plots);
    assert FirstIndex(plots, PlotCrop(plots[i])) <= i;
  }
}
