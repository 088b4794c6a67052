/**
 * The rest of the TopOpt constructor: after Init's NULL block, Init calls
 * SetUp, which runs SetUpMESH and then SetUpOPT on the grids the mesh step
 * created. Here that is a new DesignState followed by SetUpOpt. An incompatible mesh ends the program
 * before any grid or vector exists.
 */
module TopOptSetUp {
  import opened MeshBuilder
  import opened DesignStateStore

  /** Number of points of a structured grid: the product of its extents. */
  function GridSize(extent: seq<int>): (r: int)
    ensures (forall i :: 0 <= i < |extent| ==> extent[i] >= 1) ==> r >= 1
  {
    if extent == [] then 1
    else
      var rest := GridSize(extent[1..]);
      assert (forall i :: 0 <= i < |extent| ==> extent[i] >= 1) ==> rest >= 1 by {
        if forall i :: 0 <= i < |extent| ==> extent[i] >= 1 {
          assert forall i :: 0 <= i < |extent[1..]| ==> extent[1..][i] == extent[i + 1];
        }
      }
      assert extent[0] >= 1 && rest >= 1 ==> extent[0] * rest >= 1 by {
        if extent[0] >= 1 && rest >= 1 {
          MulAtLeast(rest, extent[0]);
        }
      }
      extent[0] * rest
  }

  datatype SetUpResult = Exited(axis: nat) | Ready(mesh: Mesh, state: DesignState)

  /**
   * Mesh, then optimisation set-up. The element grid has one design
   * variable per cell; the node grid's vectors carry nodeDof entries per
   * node. A mesh that passes the gate must have every extent at least 2,
   * so that the element grid has at least one cell per axis; a mesh that
   * fails the gate exits before any grid is created, whatever its extents.
   */
  method SetUp(nxyz: seq<int>, nlvls: int, nodeRanges: seq<seq<int>>, nodeDof: nat, m: nat, opts: OptOptions)
    returns (r: SetUpResult)
    requires |nodeRanges| == |nxyz|
    requires CheckLevels(nxyz, nlvls).Compatible? ==> forall i :: 0 <= i < |nxyz| ==> nxyz[i] >= 2
    ensures r.Exited? <==> CheckLevels(nxyz, nlvls).Incompatible?
    ensures r.Exited? ==> r.axis == CheckLevels(nxyz, nlvls).axis
    ensures r.Ready? ==> && fresh(r.state)
                         && r.mesh.nodes == Grid(nxyz, nodeRanges) && Aligned(r.mesh)
                         && r.state.m == m && r.state.isSetUp && r.state.Layout()
                         && r.state.n == GridSize(r.mesh.elems.extent)
                         && |r.state.nodeDensity| == GridSize(nxyz) * nodeDof
    ensures r.Ready? ==> r.state.Initial(opts)
  {
    var built := SetUpMesh(nxyz, nlvls, nodeRanges);
    if built.MeshIncompatible? {
      return Exited(built.axis);
    }
    var mesh := built.mesh;
    assert forall i :: 0 <= i < |mesh.elems.extent| ==> mesh.elems.extent[i] >= 1;
    var elemCount := GridSize(mesh.elems.extent);
    var nodeCount := GridSize(nxyz) * nodeDof;
    var state := new DesignState(m);
    state.SetUpOpt(elemCount, nodeCount, opts);
    r := Ready(mesh, state);
  }
}
