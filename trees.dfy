/** Tree recommendations: the species record, the built-in sample list and the
    optimum-tree picker `getOptimumTree` (app/Mainmaps/page.tsx). */
module Trees {
  import opened Options

  datatype Tree = Tree(name: string, suitability: string, reason: string)

  /** The built-in sample list, used as the fallback when the prediction
      service fails and as the displayed list while there are no
      recommendations. */
  const SampleTrees: seq<Tree> := [
    Tree("Neem", "High", "Neem is drought-resistant and improves soil fertility."),
    Tree("Banyan", "Medium", "Banyan provides excellent shade and supports biodiversity."),
    Tree("Peepal", "High", "Peepal is known for its air-purifying properties.")
  ]

  predicate IsHigh(t: Tree)
  {
    t.suitability == "High"
  }

  /** The index `Array.prototype.find` stops at: the first tree rated
      "High", or None when there is none. */
  function FirstHigh(ts: seq<Tree>): (i: Option<nat>)
    ensures i.Some? ==> i.value < |ts| && IsHigh(ts[i.value])
    ensures i.Some? ==> forall j :: 0 <= j < i.value ==> !IsHigh(ts[j])
    ensures i.None? <==> forall j :: 0 <= j < |ts| ==> !IsHigh(ts[j])
  {
    if ts == [] then None
    else if IsHigh(ts[0]) then Some(0)
    else match FirstHigh(ts[1..])
      case None => None
      case Some(k) => Some(k + 1)
  }

  /** `getOptimumTree`: the first tree rated "High", otherwise the first tree. */
  function OptimumTree(ts: seq<Tree>): (t: Tree)
    requires |ts| > 0
    ensures t in ts
    ensures (exists j :: 0 <= j < |ts| && IsHigh(ts[j])) ==>
              IsHigh(t) && exists i :: 0 <= i < |ts| && ts[i] == t && forall j :: 0 <= j < i ==> !IsHigh(ts[j])
    ensures (forall j :: 0 <= j < |ts| ==> !IsHigh(ts[j])) ==> t == ts[0]
  {
    match FirstHigh(ts)
    case Some(i) => ts[i]
    case None => ts[0]
  }

  /** For the built-in sample the optimum tree is Neem. */
  lemma SampleOptimumIsNeem()
    ensures OptimumTree(SampleTrees).name == "Neem"
    ensures OptimumTree(SampleTrees) == SampleTrees[0]
  {
    assert IsHigh(SampleTrees[0]);
  }
}
