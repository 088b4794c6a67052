/**
 * The design-state store of TopOpt::SetUpOPT: every per-element and per-node
 * field of the optimisation, with its layout and its initial contents.
 *
 * A distributed vector is modelled by its global contents, a sequence of
 * reals; two vectors share a layout when they have the same length.
 */
module DesignStateStore {

  type Vector = seq<real>

  /** n entries all equal to v: a vector after VecSet, or m equal vectors. */
  function Constant<T>(n: nat, v: T): (r: seq<T>)
    ensures |r| == n
    ensures forall i :: 0 <= i < n ==> r[i] == v
  {
    seq(n, _ => v)
  }

  /**
   * Fresh storage of `len` entries (VecDuplicate, new[]): the allocator
   * promises the layout, not the values, and so does this contract.
   */
  method NewVector(len: nat) returns (r: Vector)
    ensures |r| == len
  {
    assert |Constant(len, 0.0)| == len;
    r :| |r| == len;
  }

  /** `count` fresh vectors of `len` entries each (VecDuplicateVecs). */
  method NewVectors(count: nat, len: nat) returns (vs: seq<Vector>)
    ensures |vs| == count
    ensures forall i :: 0 <= i < count ==> |vs[i]| == len
  {
    vs := [];
    while |vs| < count
      invariant |vs| <= count
      invariant forall i :: 0 <= i < |vs| ==> |vs[i]| == len
    {
      var v := NewVector(len);
      vs := vs + [v];
    }
  }

  /** Filter mode 0 is the sensitivity filter, which divides by the design variable. */
  const SensitivityFilter: int := 0

  /** The lower design bound forced when the sensitivity filter is chosen. */
  const SensitivityFilterXmin: real := 0.001

  /**
   * The lower design bound SetUpOPT keeps: with the sensitivity filter it is
   * forced positive (no division by zero in the filter), with any other filter
   * it is the configured one.
   */
  function EffectiveXmin(filter: int, configured: real): (r: real)
    ensures filter == SensitivityFilter ==> r == SensitivityFilterXmin && r > 0.0
    ensures filter != SensitivityFilter ==> r == configured
  {
    if filter == SensitivityFilter then SensitivityFilterXmin else configured
  }

  /** The options SetUpOPT reads that decide the state it allocates. */
  datatype OptOptions = OptOptions(volfrac: real, filter: int, xmin: real)

  /** Default optimisation options (filter 1 is the density filter). */
  function DefaultOptOptions(volfrac: real): (o: OptOptions)
    ensures o.filter == 1 && o.xmin == 0.0
  {
    OptOptions(volfrac, 1, 0.0)
  }

  /** With the default density filter the configured lower bound 0 is kept. */
  lemma DefaultsKeepXmin(volfrac: real)
    ensures var o := DefaultOptOptions(volfrac);
      o.filter != SensitivityFilter && EffectiveXmin(o.filter, o.xmin) == 0.0
  {
  }

  /** The number of constraints of the default TopOpt object. */
  const DefaultConstraints: nat := 1

  class DesignState {
    /** Number of constraints. */
    const m: nat
    /** False until SetUpOPT has run (the source's NULL vectors). */
    var isSetUp: bool
    /** Total number of design variables (VecGetSize of xPhys). */
    var n: nat

    // element-domain fields
    var x: Vector
    var xTilde: Vector
    var xPhys: Vector
    var xold: Vector
    var xmin: Vector
    var xmax: Vector
    var dfdx: Vector
    var dgdx: seq<Vector>
    var xPassive0: Vector
    var xPassive1: Vector
    var xPassive2: Vector
    var xPassive3: Vector
    // node-domain fields
    var nodeDensity: Vector
    var nodeAddingCounts: Vector
    /** The m constraint values. */
    var gx: array<real>

    var volfrac: real
    var filter: int
    var Xmin: real
    /** Objective scale factor, kept with the checkpoint. */
    var fscale: real

    /**
     * The layout invariant: every element-domain field has xPhys's length n,
     * both node-domain fields share nodeDensity's length, and the
     * constraint-indexed collections have exactly m entries.
     */
    ghost predicate Layout()
      reads this
    {
      && |xPhys| == n
      && |x| == n && |xTilde| == n && |xold| == n
      && |xmin| == n && |xmax| == n && |dfdx| == n
      && |xPassive0| == n && |xPassive1| == n && |xPassive2| == n && |xPassive3| == n
      && |dgdx| == m && (forall i :: 0 <= i < m ==> |dgdx[i]| == n)
      && |nodeAddingCounts| == |nodeDensity|
      && gx.Length == m
    }

    /**
     * The contents SetUpOPT gives the store, on top of its layout: the design
     * fields at the volume fraction, the sensitivities, the passive masks and
     * both node fields at zero, the options as read and Xmin by the filter rule.
     */
    ghost predicate Initial(opts: OptOptions)
      reads this
    {
      && x == Constant(n, opts.volfrac) && xTilde == Constant(n, opts.volfrac)
      && xPhys == Constant(n, opts.volfrac) && xold == Constant(n, opts.volfrac)
      && dfdx == Constant(n, 0.0) && dgdx == Constant(m, Constant(n, 0.0))
      && xPassive0 == Constant(n, 0.0) && xPassive1 == Constant(n, 0.0)
      && xPassive2 == Constant(n, 0.0) && xPassive3 == Constant(n, 0.0)
      && nodeDensity == Constant(|nodeDensity|, 0.0) && nodeAddingCounts == Constant(|nodeDensity|, 0.0)
      && volfrac == opts.volfrac && filter == opts.filter
      && Xmin == EffectiveXmin(opts.filter, opts.xmin)
    }

    /**
     * TopOpt(nconstraints) up to Init's NULL block: m is set and no vector
     * exists yet. The SetUp call that ends Init is TopOptSetUp.SetUp.
     */
    constructor (nconstraints: nat)
      ensures m == nconstraints && !isSetUp
    {
      m := nconstraints;
      isSetUp := false;
      n := 0;
      x, xTilde, xPhys, xold, xmin, xmax, dfdx := [], [], [], [], [], [], [];
      dgdx := [];
      xPassive0, xPassive1, xPassive2, xPassive3 := [], [], [], [];
      nodeDensity, nodeAddingCounts := [], [];
      gx := new real[0];
      volfrac, filter, Xmin, fscale := 0.0, 0, 0.0, 0.0;
    }

    /**
     * TopOpt() up to Init's NULL block: one constraint and no vector yet.
     * The SetUp call that ends Init is TopOptSetUp.SetUp.
     */
    constructor Default()
      ensures m == DefaultConstraints && !isSetUp
    {
      m := DefaultConstraints;
      isSetUp := false;
      n := 0;
      x, xTilde, xPhys, xold, xmin, xmax, dfdx := [], [], [], [], [], [], [];
      dgdx := [];
      xPassive0, xPassive1, xPassive2, xPassive3 := [], [], [], [];
      nodeDensity, nodeAddingCounts := [], [];
      gx := new real[0];
      volfrac, filter, Xmin, fscale := 0.0, 0, 0.0, 0.0;
    }

    /**
     * SetUpOPT on an element grid of `elemCount` entries and a node grid of
     * `nodeCount` entries: the design fields start at the volume fraction,
     * the sensitivities, the passive masks and both node fields at zero; the
     * bounds get the element layout but no values.
     */
    method SetUpOpt(elemCount: nat, nodeCount: nat, opts: OptOptions)
      modifies this
      ensures isSetUp && Layout() && Initial(opts)
      ensures n == elemCount && |nodeDensity| == nodeCount
      ensures fresh(gx)
      ensures fscale == old(fscale)
    {
      AllocateDesign(elemCount, nodeCount, opts);
      AllocateDerived();
      isSetUp := true;
    }

    /** The grid vectors, the options and the design fields. */
    method AllocateDesign(elemCount: nat, nodeCount: nat, opts: OptOptions)
      modifies this`xPhys, this`nodeDensity, this`n, this`volfrac, this`filter, this`Xmin, this`gx
      modifies this`x, this`xTilde
      ensures n == elemCount && |nodeDensity| == nodeCount
      ensures x == Constant(n, volfrac) && xTilde == Constant(n, volfrac) && xPhys == Constant(n, volfrac)
      ensures volfrac == opts.volfrac && filter == opts.filter
      ensures Xmin == EffectiveXmin(opts.filter, opts.xmin)
      ensures fresh(gx) && gx.Length == m
    {
      CreateGridVectors(elemCount, nodeCount);
      ApplyOptions(opts);
      InitDesign();
    }

    /** The sensitivities, the bounds and the passive and node fields, all on the grids' layouts. */
    method AllocateDerived()
      requires |x| == n && |xPhys| == n
      modifies this`dfdx, this`dgdx, this`xmin, this`xmax, this`xold
      modifies this`xPassive0, this`xPassive1, this`xPassive2, this`xPassive3
      modifies this`nodeDensity, this`nodeAddingCounts
      ensures dfdx == Constant(n, 0.0) && dgdx == Constant(m, Constant(n, 0.0))
      ensures |xmin| == n && |xmax| == n && xold == Constant(n, volfrac)
      ensures xPassive0 == Constant(n, 0.0) && xPassive1 == Constant(n, 0.0)
      ensures xPassive2 == Constant(n, 0.0) && xPassive3 == Constant(n, 0.0)
      ensures nodeDensity == Constant(|old(nodeDensity)|, 0.0)
      ensures nodeAddingCounts == Constant(|old(nodeDensity)|, 0.0)
    {
      InitSensitivities();
      InitBounds();
      InitPassive();
    }

    /** xPhys on the element grid and nodeDensity on the node grid; n is xPhys's size. */
    method CreateGridVectors(elemCount: nat, nodeCount: nat)
      modifies this`xPhys, this`nodeDensity, this`n
      ensures |xPhys| == elemCount && |nodeDensity| == nodeCount && n == elemCount
    {
      xPhys := NewVector(elemCount);
      nodeDensity := NewVector(nodeCount);
      n := |xPhys|;
    }

    /** The options read after the grids exist, the constraint array, and the filter rule for Xmin. */
    method ApplyOptions(opts: OptOptions)
      modifies this`volfrac, this`filter, this`Xmin, this`gx
      ensures volfrac == opts.volfrac && filter == opts.filter
      ensures Xmin == EffectiveXmin(opts.filter, opts.xmin)
      ensures fresh(gx) && gx.Length == m
    {
      volfrac, filter, Xmin := opts.volfrac, opts.filter, opts.xmin;
      gx := new real[m];
      if filter == SensitivityFilter {
        Xmin := SensitivityFilterXmin;
      }
    }

    /** x and xTilde duplicate xPhys; all three start at the volume fraction. */
    method InitDesign()
      requires |xPhys| == n
      modifies this`x, this`xTilde, this`xPhys
      ensures x == Constant(n, volfrac) && xTilde == Constant(n, volfrac) && xPhys == Constant(n, volfrac)
    {
      x := NewVector(|xPhys|);
      xTilde := NewVector(|xPhys|);
      x := Constant(n, volfrac);
      xTilde := Constant(n, volfrac);
      xPhys := Constant(n, volfrac);
    }

    /** dfdx and the m constraint gradients duplicate x and are zeroed one by one. */
    method InitSensitivities()
      requires |x| == n
      modifies this`dfdx, this`dgdx
      ensures dfdx == Constant(n, 0.0) && dgdx == Constant(m, Constant(n, 0.0))
    {
      dfdx := NewVector(|x|);
      var g := NewVectors(m, |x|);
      dfdx := Constant(n, 0.0);
      for i := 0 to m
        invariant |g| == m
        invariant forall j :: 0 <= j < i ==> g[j] == Constant(n, 0.0)
      {
        g := g[i := Constant(n, 0.0)];
      }
      dgdx := g;
    }

    /** The bounds get x's layout and no values; the previous design starts at the volume fraction. */
    method InitBounds()
      requires |x| == n
      modifies this`xmin, this`xmax, this`xold
      ensures |xmin| == n && |xmax| == n && xold == Constant(n, volfrac)
    {
      xmin := NewVector(|x|);
      xmax := NewVector(|x|);
      xold := NewVector(|x|);
      xold := Constant(n, volfrac);
    }

    /** The four passive masks duplicate xPhys, nodeAddingCounts duplicates nodeDensity; all six are zeroed. */
    method InitPassive()
      requires |xPhys| == n
      modifies this`xPassive0, this`xPassive1, this`xPassive2, this`xPassive3
      modifies this`nodeDensity, this`nodeAddingCounts
      ensures xPassive0 == Constant(n, 0.0) && xPassive1 == Constant(n, 0.0)
      ensures xPassive2 == Constant(n, 0.0) && xPassive3 == Constant(n, 0.0)
      ensures nodeDensity == Constant(|old(nodeDensity)|, 0.0)
      ensures nodeAddingCounts == Constant(|old(nodeDensity)|, 0.0)
    {
      xPassive0 := NewVector(|xPhys|);
      xPassive1 := NewVector(|xPhys|);
      xPassive2 := NewVector(|xPhys|);
      xPassive3 := NewVector(|xPhys|);
      nodeAddingCounts := NewVector(|nodeDensity|);

      xPassive0 := Constant(n, 0.0);
      xPassive1 := Constant(n, 0.0);
      xPassive2 := Constant(n, 0.0);
      xPassive3 := Constant(n, 0.0);
      nodeDensity := Constant(|nodeDensity|, 0.0);
      nodeAddingCounts := Constant(|nodeDensity|, 0.0);
    }
  }
}
