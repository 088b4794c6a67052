/**
 * The mesh builder of TopOpt::SetUpMESH: the check that the node counts can be
 * coarsened by the multigrid solver, and the derivation of the element grid's
 * ownership table from the node grid's.
 *
 * Axes are numbered 0 (X), 1 (Y) and 2 (Z); a 2-D mesh has two entries per
 * table and a 3-D mesh three.
 */
module MeshBuilder {

  /** 2 raised to the power k. */
  function Pow2(k: nat): (r: nat)
    ensures r >= 1
    ensures k >= 1 ==> r % 2 == 0
  {
    if k == 0 then 1 else 2 * Pow2(k - 1)
  }

  /**
   * The multigrid check for one axis with `count` nodes and `nlvls` levels:
   * `count - 1` must be a multiple of 2^(nlvls-1). For nlvls < 1 the source's
   * divisor is a fraction that truncates to the integer 0, so one side of its
   * comparison is infinite or undefined and the check fails, as here, as long
   * as |count - 1| * 2^(1-nlvls) stays within the double range. Beyond it both
   * sides are infinite and the source's check passes; the model does not
   * follow it there.
   */
  predicate AxisCompatible(count: int, nlvls: int)
    ensures AxisCompatible(count, nlvls) ==> nlvls >= 1
    ensures nlvls >= 1 && count == 1 ==> AxisCompatible(count, nlvls)
  {
    nlvls >= 1 && (count - 1) % Pow2(nlvls - 1) == 0
  }

  /** Independent reading of the diagnostic: k can be halved t times without remainder. */
  predicate Halvable(k: int, t: nat)
    decreases t
  {
    t == 0 || (k % 2 == 0 && Halvable(k / 2, t - 1))
  }

  lemma {:induction false} MulAtLeast(p: int, d: int)
    requires p >= 0 && d >= 1
    ensures p * d >= p
    decreases d
  {
    if d > 1 {
      MulAtLeast(p, d - 1);
      assert p * d == p * (d - 1) + p;
    }
  }

  lemma MulMod(p: int, j: int)
    requires p > 0
    ensures (p * j) % p == 0 && (p * j) / p == j
  {
    var q, r := (p * j) / p, (p * j) % p;
    assert p * j == p * q + r && 0 <= r < p;
    assert p * (j - q) == r;
    if j - q >= 1 {
      MulAtLeast(p, j - q);
      assert false;
    } else if j - q <= -1 {
      MulAtLeast(p, q - j);
      assert false;
    }
  }

  lemma ModDouble(k: int, p: int)
    requires p >= 1
    ensures k % (2 * p) == 0 <==> (k % 2 == 0 && (k / 2) % p == 0)
  {
    if k % (2 * p) == 0 {
      var j := k / (2 * p);
      assert k == (2 * p) * j;
      assert k == 2 * (p * j);
      MulMod(2, p * j);
      MulMod(p, j);
    }
    if k % 2 == 0 && (k / 2) % p == 0 {
      var h := k / 2;
      var j := h / p;
      assert h == p * j;
      assert k == 2 * h;
      assert k == (2 * p) * j;
      MulMod(2 * p, j);
    }
  }

  /** Divisibility by 2^t is the same as being halvable t times. */
  lemma {:induction false} DivisibleIffHalvable(k: int, t: nat)
    ensures k % Pow2(t) == 0 <==> Halvable(k, t)
    decreases t
  {
    if t > 0 {
      ModDouble(k, Pow2(t - 1));
      DivisibleIffHalvable(k / 2, t - 1);
    }
  }

  /** The axis check accepts exactly the node counts whose element count halves nlvls-1 times. */
  lemma AxisCompatibleIffHalvable(count: int, nlvls: int)
    ensures AxisCompatible(count, nlvls) <==> nlvls >= 1 && Halvable(count - 1, nlvls - 1)
  {
    if nlvls >= 1 {
      DivisibleIffHalvable(count - 1, nlvls - 1);
    }
  }

  /** Outcome of the multigrid check: the mesh passes, or the first failing axis is named. */
  datatype GateResult = Compatible | Incompatible(axis: nat)

  /** The checks of the axes from k on, in the source's order X, Y, Z. */
  function CheckFrom(nxyz: seq<int>, nlvls: int, k: nat): (r: GateResult)
    requires k <= |nxyz|
    ensures r.Compatible? <==> forall i :: k <= i < |nxyz| ==> AxisCompatible(nxyz[i], nlvls)
    ensures r.Incompatible? ==>
              && k <= r.axis < |nxyz|
              && !AxisCompatible(nxyz[r.axis], nlvls)
              && forall i :: k <= i < r.axis ==> AxisCompatible(nxyz[i], nlvls)
    decreases |nxyz| - k
  {
    if k == |nxyz| then Compatible
    else if !AxisCompatible(nxyz[k], nlvls) then Incompatible(k)
    else CheckFrom(nxyz, nlvls, k + 1)
  }

  /**
   * The multigrid gate of SetUpMESH: the mesh passes iff every axis passes;
   * otherwise the result names the first axis that fails, the one whose
   * diagnostic is printed before the process exits.
   */
  function CheckLevels(nxyz: seq<int>, nlvls: int): (r: GateResult)
    ensures r.Compatible? <==> forall i :: 0 <= i < |nxyz| ==> AxisCompatible(nxyz[i], nlvls)
    ensures r.Incompatible? ==>
              && r.axis < |nxyz|
              && !AxisCompatible(nxyz[r.axis], nlvls)
              && forall i :: 0 <= i < r.axis ==> AxisCompatible(nxyz[i], nlvls)
  {
    CheckFrom(nxyz, nlvls, 0)
  }

  /** The compiled-in problem variants. */
  datatype Dimension = TwoD | ThreeD
  datatype Physics = Elasticity | Compliant | Heat

  /** Multigrid levels compiled in for every variant. */
  const DefaultLevels: int := 4

  /** Node counts compiled in for each variant. */
  function DefaultNodeCounts(dim: Dimension, physics: Physics): (nxyz: seq<int>)
    ensures |nxyz| == (if dim == TwoD then 2 else 3)
    ensures forall i :: 0 <= i < |nxyz| ==> nxyz[i] >= 2
  {
    match (dim, physics)
    case (TwoD, Elasticity) => [241, 121]
    case (TwoD, Compliant) => [241, 121]
    case (TwoD, Heat) => [201, 249]
    case (ThreeD, Elasticity) => [65, 33, 33]
    case (ThreeD, Compliant) => [81, 41, 9]
    case (ThreeD, Heat) => [49, 65, 49]
  }

  /** Every compiled-in default mesh passes the gate with the default levels. */
  lemma DefaultsCompatible(dim: Dimension, physics: Physics)
    ensures |DefaultNodeCounts(dim, physics)| == (if dim == TwoD then 2 else 3)
    ensures CheckLevels(DefaultNodeCounts(dim, physics), DefaultLevels) == Compatible
  {
    assert Pow2(3) == 8;
  }

  /** 242 nodes along X cannot be coarsened to four levels: 241 is odd. */
  lemma OddElementCountRejected()
    ensures CheckLevels([242, 121], 4) == Incompatible(0)
    ensures CheckLevels([241, 121, 10], 4) == Incompatible(2)
  {
    assert Pow2(3) == 8;
  }

  /** Sum of an ownership table: the number of nodes (or cells) it distributes. */
  function Sum(s: seq<int>): int
  {
    if s == [] then 0 else s[0] + Sum(s[1..])
  }

  /**
   * The element ownership table derived from a node ownership table: the
   * lowest-rank slab gives up one node, every other slab is unchanged.
   */
  function ElementRanges(nodeRanges: seq<int>): (r: seq<int>)
    ensures |r| == |nodeRanges|
    ensures |nodeRanges| > 0 ==> r[0] == nodeRanges[0] - 1
    ensures forall i :: 0 < i < |nodeRanges| ==> r[i] == nodeRanges[i]
  {
    if nodeRanges == [] then [] else [nodeRanges[0] - 1] + nodeRanges[1..]
  }

  /** A table that distributes n nodes derives one that distributes n - 1 cells. */
  lemma ElementRangesSum(nodeRanges: seq<int>)
    requires |nodeRanges| > 0
    ensures Sum(ElementRanges(nodeRanges)) == Sum(nodeRanges) - 1
  {
    var e := ElementRanges(nodeRanges);
    assert e[1..] == nodeRanges[1..];
  }

  /** The loop of SetUpMESH that copies one axis's node table and lowers entry 0. */
  method DeriveElementRanges(nodeRanges: seq<int>) returns (elemRanges: seq<int>)
    ensures elemRanges == ElementRanges(nodeRanges)
  {
    var md := |nodeRanges|;
    var lx := new int[md];
    for i := 0 to md
      invariant forall j :: 0 <= j < i ==> lx[j] == ElementRanges(nodeRanges)[j]
    {
      lx[i] := nodeRanges[i];
      if i == 0 {
        lx[i] := lx[i] - 1;
      }
    }
    elemRanges := lx[..];
  }

  /** A structured grid: extent per axis and, per axis, the slab owned by each rank. */
  datatype Grid = Grid(extent: seq<int>, ranges: seq<seq<int>>)

  /** The node grid and the element grid built on the same rank topology. */
  datatype Mesh = Mesh(nodes: Grid, elems: Grid)

  /**
   * The mesh invariant: per axis the element grid is one cell shorter than the
   * node grid and its ownership table is the derived one, so both grids have
   * the same number of ranks per axis.
   */
  ghost predicate Aligned(mesh: Mesh)
  {
    && |mesh.nodes.extent| == |mesh.elems.extent| == |mesh.nodes.ranges| == |mesh.elems.ranges|
    && forall i :: 0 <= i < |mesh.nodes.extent| ==>
         && mesh.elems.extent[i] == mesh.nodes.extent[i] - 1
         && mesh.elems.ranges[i] == ElementRanges(mesh.nodes.ranges[i])
  }

  /** Per axis, the element table distributes exactly the element grid's cells. */
  lemma AlignedElementsCovered(mesh: Mesh, i: nat)
    requires Aligned(mesh) && i < |mesh.nodes.extent|
    requires |mesh.nodes.ranges[i]| > 0 && Sum(mesh.nodes.ranges[i]) == mesh.nodes.extent[i]
    ensures |mesh.elems.ranges[i]| == |mesh.nodes.ranges[i]|
    ensures Sum(mesh.elems.ranges[i]) == mesh.elems.extent[i]
  {
    ElementRangesSum(mesh.nodes.ranges[i]);
  }

  datatype MeshResult = MeshIncompatible(axis: nat) | MeshBuilt(mesh: Mesh)

  /**
   * SetUpMESH: the multigrid gate first; on success the node grid with the
   * ownership tables the allocator chose, then the element grid with n - 1
   * cells per axis and the derived tables.
   */
  method SetUpMesh(nxyz: seq<int>, nlvls: int, nodeRanges: seq<seq<int>>) returns (r: MeshResult)
    requires |nodeRanges| == |nxyz|
    ensures r.MeshIncompatible? <==> CheckLevels(nxyz, nlvls).Incompatible?
    ensures r.MeshIncompatible? ==> r.axis == CheckLevels(nxyz, nlvls).axis
    ensures r.MeshBuilt? ==> r.mesh.nodes == Grid(nxyz, nodeRanges) && Aligned(r.mesh)
  {
    var gate := CheckLevels(nxyz, nlvls);
    if gate.Incompatible? {
      return MeshIncompatible(gate.axis);
    }
    var elemExtent: seq<int> := [];
    var elemRanges: seq<seq<int>> := [];
    for k := 0 to |nxyz|
      invariant |elemExtent| == |elemRanges| == k
      invariant forall i :: 0 <= i < k ==> elemExtent[i] == nxyz[i] - 1
      invariant forall i :: 0 <= i < k ==> elemRanges[i] == ElementRanges(nodeRanges[i])
    {
      var l := DeriveElementRanges(nodeRanges[k]);
      elemExtent := elemExtent + [nxyz[k] - 1];
      elemRanges := elemRanges + [l];
    }
    r := MeshBuilt(Mesh(Grid(nxyz, nodeRanges), Grid(elemExtent, elemRanges)));
  }
}
