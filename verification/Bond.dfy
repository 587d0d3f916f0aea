/** The mutual bond graph (crates/bond/src/lib.rs). */
module Bond {
  import opened Protocol

  type Edges = map<(DogId, DogId), real>

  function Clamped(w: real): real { if w < 0.0 then 0.0 else if w > 1.0 then 1.0 else w }

  function AtLeastMin(w: real): real { if w < W_MIN then W_MIN else w }

  function Weight(g: Edges, a: DogId, b: DogId): real { if (a, b) in g then g[(a, b)] else 0.0 }

  predicate MutualEligible(g: Edges, a: DogId, b: DogId) {
    Weight(g, a, b) >= W_MIN && Weight(g, b, a) >= W_MIN
  }

  function WeightSet(g: Edges, a: DogId, b: DogId, w: real): Edges { g[(a, b) := Clamped(w)] }

  function Bootstrapped(g: Edges, a: DogId, b: DogId, w: real): Edges {
    var v := AtLeastMin(Clamped(w));
    WeightSet(WeightSet(g, a, b, v), b, a, v)
  }

  /** A bootstrapped pair is always mutually eligible, whatever weight the steward gave, and
      no other pair changes. */
  lemma BootstrapMakesMutual(g: Edges, a: DogId, b: DogId, w: real)
    ensures MutualEligible(Bootstrapped(g, a, b, w), a, b)
    ensures forall c, d :: {c, d} != {a, b} ==>
                             (MutualEligible(Bootstrapped(g, a, b, w), c, d) <==> MutualEligible(g, c, d))
  {}

  /** A weight is stored for that direction alone: as given, or the nearest bound from 0 to 1. */
  lemma WeightIsStored(g: Edges, a: DogId, b: DogId, w: real)
    ensures var h := WeightSet(g, a, b, w);
            && 0.0 <= Weight(h, a, b) <= 1.0 && (0.0 <= w <= 1.0 ==> Weight(h, a, b) == w)
            && (w < 0.0 ==> Weight(h, a, b) == 0.0) && (w > 1.0 ==> Weight(h, a, b) == 1.0)
            && forall c, d :: (c, d) != (a, b) ==> Weight(h, c, d) == Weight(g, c, d)
  {}

  /** Either dog alone can end a bond: a weight below 0.3 in one direction leaves the two not eligible,
      whichever asks, and neither is then a candidate of the other. */
  lemma OneSideEndsIt(g: Edges, a: DogId, b: DogId, w: real)
    requires w < 0.3
    ensures var h := WeightSet(g, a, b, w);
            && !MutualEligible(h, a, b) && !MutualEligible(h, b, a)
            && forall v :: !CandidateEdge(h, a, b, v) && !CandidateEdge(h, b, a, v)
  {}

  predicate CandidateEdge(g: Edges, from: DogId, peer: DogId, w: real) {
    (from, peer) in g && g[(from, peer)] == w && w >= W_MIN && Weight(g, peer, from) >= W_MIN
  }

  predicate SortedByWeight(out: seq<(DogId, real)>) {
    forall i, j :: 0 <= i < j < |out| ==> out[i].1 >= out[j].1
  }

  /** A list the source may produce: the eligible peers, strongest first. Ties come in
      whatever order the hash map was iterated in. */
  ghost predicate IsCandidates(g: Edges, from: DogId, out: seq<(DogId, real)>) {
    SortedByWeight(out) &&
    (forall c :: c in out <==> CandidateEdge(g, from, c.0, c.1)) &&
    DistinctPeers(out)
  }

  class BondGraph {
    var edges: Edges

    constructor ()
      ensures edges == map[]
    {
      edges := map[];
    }

    method SetWeight(a: DogId, b: DogId, w: real)
      modifies this
      ensures edges == WeightSet(old(edges), a, b, w)
    {
      edges := edges[(a, b) := Clamped(w)];
    }

    method BootstrapMutual(a: DogId, b: DogId, weight: real)
      modifies this
      ensures edges == Bootstrapped(old(edges), a, b, weight)
    {
      var w := AtLeastMin(Clamped(weight));
      SetWeight(a, b, w);
      SetWeight(b, a, w);
    }

    /** Peers the dog may call, by weight descending, for any iteration order of the edges. */
    method Candidates(from: DogId) returns (out: seq<(DogId, real)>)
      ensures IsCandidates(edges, from, out)
    {
      out := [];
      var todo := edges.Keys;
      while todo != {}
        invariant todo <= edges.Keys
        invariant forall c :: c in out <==> CandidateEdge(edges, from, c.0, c.1) && (from, c.0) !in todo
        invariant DistinctPeers(out)
        decreases |todo|
      {
        var key :| key in todo;
        todo := todo - {key};
        var w := edges[key];
        if key.0 == from && w >= W_MIN && Weight(edges, key.1, from) >= W_MIN {
          out := out + [(key.1, w)];
        }
      }
      out := SortByWeight(out);
    }
  }

  predicate DistinctPeers(out: seq<(DogId, real)>) {
    forall i, j :: 0 <= i < j < |out| ==> out[i].0 != out[j].0
  }

  /** A stable sort by weight, strongest first, standing in for the library's. */
  method SortByWeight(list: seq<(DogId, real)>) returns (out: seq<(DogId, real)>)
    requires DistinctPeers(list)
    ensures SortedByWeight(out) && DistinctPeers(out)
    ensures forall c :: c in out <==> c in list
  {
    out := [];
    for i := 0 to |list|
      invariant SortedByWeight(out) && DistinctPeers(out)
      invariant forall c :: c in out <==> c in list[..i]
    {
      var k := |out|;
      while k > 0 && out[k - 1].1 < list[i].1
        invariant 0 <= k <= |out|
        invariant forall j :: k <= j < |out| ==> out[j].1 < list[i].1
      {
        k := k - 1;
      }
      assert list[..i + 1] == list[..i] + [list[i]];
      forall j | 0 <= j < |out| ensures out[j].0 != list[i].0 {
        assert out[j] in list[..i];
      }
      InsertedAt(out, k, list[i]);
      out := out[..k] + [list[i]] + out[k..];
    }
    assert list[..|list|] == list;
  }

  lemma InsertedAt(out: seq<(DogId, real)>, k: nat, c: (DogId, real))
    requires k <= |out| && SortedByWeight(out) && DistinctPeers(out)
    requires forall j :: 0 <= j < |out| ==> out[j].0 != c.0
    requires forall j :: k <= j < |out| ==> out[j].1 < c.1
    requires k > 0 ==> out[k - 1].1 >= c.1
    ensures var r := out[..k] + [c] + out[k..];
            SortedByWeight(r) && DistinctPeers(r) && forall d :: d in r <==> d in out || d == c
  {}
}
