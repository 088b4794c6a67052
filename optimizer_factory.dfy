/**
 * The start-up half of AllocateMMAwithRestart: the fixed MMA coefficients,
 * the choice between a cold start, a design-only start and a continued run,
 * and the optimizer that choice constructs.
 */
module OptimizerStateFactory {
  import opened Wrappers
  import opened RestartCheckpoint
  import opened DesignStateStore

  /** The per-constraint MMA coefficients, the same on every start-up path. */
  const CoefficientA: real := 0.0
  const CoefficientC: real := 1000.0
  const CoefficientD: real := 0.0

  /** The loop that fills aMMA, cMMA and dMMA for m constraints. */
  method MmaCoefficients(m: nat) returns (a: array<real>, c: array<real>, d: array<real>)
    ensures fresh(a) && fresh(c) && fresh(d)
    ensures a[..] == DesignStateStore.Constant(m, CoefficientA)
    ensures c[..] == DesignStateStore.Constant(m, CoefficientC)
    ensures d[..] == DesignStateStore.Constant(m, CoefficientD)
  {
    a := new real[m];
    c := new real[m];
    d := new real[m];
    for i := 0 to m
      invariant forall j :: 0 <= j < i ==> a[j] == CoefficientA && c[j] == CoefficientC && d[j] == CoefficientD
    {
      a[i] := CoefficientA;
      d[i] := CoefficientD;
      c[i] := CoefficientC;
    }
  }

  /** The start-up options: -restart, -onlyLoadDesign, -workdir, -restartFileVec, -restartFileItr. */
  datatype Options = Options(
    restart: bool, onlyLoadDesign: bool, workdir: Option<string>,
    restartFileVec: Option<string>, restartFileItr: Option<string>)

  /** No option given: restart on, full restart, no restart point to read. */
  function DefaultOptions(): (o: Options)
    ensures o.restart && !o.onlyLoadDesign
    ensures o.workdir.None? && o.restartFileVec.None? && o.restartFileItr.None?
  {
    Options(true, false, None, None, None)
  }

  /** The path of the restart point's container; "" when none is given. */
  function VecPath(o: Options): (p: string)
    ensures o.restartFileVec.None? ==> p == ""
    ensures o.restartFileVec.Some? ==> p == o.restartFileVec.value
  {
    o.restartFileVec.GetOr("")
  }

  /** The path of the restart point's sidecar; "" when none is given. */
  function ItrPath(o: Options): (p: string)
    ensures o.restartFileItr.None? ==> p == ""
    ensures o.restartFileItr.Some? ==> p == o.restartFileItr.value
  {
    o.restartFileItr.GetOr("")
  }

  /** A restart point is read exactly when restart is on and both of its files exist. */
  predicate Resumes(o: Options, disk: Disk)
    ensures Resumes(o, disk) ==> o.restart && VecPath(o) in disk && ItrPath(o) in disk
    ensures Resumes(o, disk) ==> o.restartFileVec.Some? && o.restartFileItr.Some?
  {
    o.restart && FileExists(disk, VecPath(o)) && FileExists(disk, ItrPath(o))
  }

  datatype Mode = ColdStart | DesignOnly | Continue

  /** Which of the three start-ups the options and the disk select. */
  function ResumeMode(o: Options, disk: Disk): (mode: Mode)
    ensures mode == ColdStart <==> !Resumes(o, disk)
    ensures mode == DesignOnly <==> Resumes(o, disk) && o.onlyLoadDesign
    ensures mode == Continue <==> Resumes(o, disk) && !o.onlyLoadDesign
  {
    if !Resumes(o, disk) then ColdStart
    else if o.onlyLoadDesign then DesignOnly
    else Continue
  }

  /**
   * The MMA constructor that is called: from a design (the global size, m,
   * the starting design) or from a history (also the iteration and the two
   * previous designs and the asymptotes); both take the coefficients.
   */
  datatype MmaInit =
    | FromDesign(n: int, m: nat, x: Vector, a: seq<real>, c: seq<real>, d: seq<real>)
    | FromHistory(n: int, m: nat, itr: int, xo1: Vector, xo2: Vector, U: Vector, L: Vector,
                  a: seq<real>, c: seq<real>, d: seq<real>)

  /** What a start-up leaves: the state it loaded (or kept) and the optimizer it built. */
  datatype StartResult = StartResult(state: Restored, mma: MmaInit)

  /**
   * The start-up: `cur` is the state in memory (x and xPhys from SetUpOPT,
   * the duplicated history vectors, the iteration and fscale passed in); the
   * global size is that of the current x.
   */
  function Start(o: Options, disk: Disk, cur: Restored, m: nat): (r: StartResult)
    ensures r.mma.n == |cur.x| && r.mma.m == m
    ensures r.mma.a == DesignStateStore.Constant(m, CoefficientA)
    ensures r.mma.c == DesignStateStore.Constant(m, CoefficientC)
    ensures r.mma.d == DesignStateStore.Constant(m, CoefficientD)
    ensures |r.state.x| == |cur.x| && |r.state.xPhys| == |cur.xPhys| && |r.state.xo1| == |cur.xo1|
    ensures |r.state.xo2| == |cur.xo2| && |r.state.U| == |cur.U| && |r.state.L| == |cur.L|
  {
    var a := DesignStateStore.Constant(m, CoefficientA);
    var c := DesignStateStore.Constant(m, CoefficientC);
    var d := DesignStateStore.Constant(m, CoefficientD);
    if !Resumes(o, disk) then
      StartResult(cur, FromDesign(|cur.x|, m, cur.x, a, c, d))
    else
      var loaded := ReadBack(disk[VecPath(o)], disk[ItrPath(o)], cur);
      if o.onlyLoadDesign then
        StartResult(loaded, FromDesign(|cur.x|, m, loaded.x, a, c, d))
      else
        StartResult(loaded, FromHistory(|cur.x|, m, loaded.itr, loaded.xo1, loaded.xo2, loaded.U, loaded.L, a, c, d))
  }

  /**
   * Starting again from what a start-up left in the history vectors gives
   * the same start-up: each VecLoad either overwrote the vector or left it.
   */
  lemma LoadedHistoryIsStable(o: Options, disk: Disk, cur: Restored, m: nat)
    ensures var r := Start(o, disk, cur, m);
      Start(o, disk, cur.(xo1 := r.state.xo1, xo2 := r.state.xo2, U := r.state.U, L := r.state.L), m) == r
  {
  }

  /** A cold start reads nothing and builds the optimizer from the design in memory. */
  lemma ColdStartKeepsState(o: Options, disk: Disk, cur: Restored, m: nat)
    requires ResumeMode(o, disk) == ColdStart
    ensures Start(o, disk, cur, m).state == cur
    ensures Start(o, disk, cur, m).mma.FromDesign? && Start(o, disk, cur, m).mma.x == cur.x
  {
  }

  /**
   * A design-only start loads the whole restart point, the iteration and
   * fscale included, but builds the optimizer from the loaded x alone.
   */
  lemma DesignOnlyUsesLoadedDesign(o: Options, disk: Disk, cur: Restored, m: nat)
    requires ResumeMode(o, disk) == DesignOnly
    ensures var r := Start(o, disk, cur, m);
      && r.state == ReadBack(disk[VecPath(o)], disk[ItrPath(o)], cur)
      && r.mma.FromDesign? && r.mma.x == r.state.x
  {
  }

  /** A continued run builds the optimizer from the loaded iteration and history. */
  lemma ContinueUsesHistory(o: Options, disk: Disk, cur: Restored, m: nat)
    requires ResumeMode(o, disk) == Continue
    ensures var r := Start(o, disk, cur, m);
      && r.state == ReadBack(disk[VecPath(o)], disk[ItrPath(o)], cur)
      && r.mma.FromHistory?
      && r.mma.itr == r.state.itr
      && r.mma.xo1 == r.state.xo1 && r.mma.xo2 == r.state.xo2
      && r.mma.U == r.state.U && r.mma.L == r.state.L
  {
  }

  /** With no restart files named, every start-up is a cold start, whatever is on disk. */
  lemma DefaultOptionsColdStart(disk: Disk)
    ensures ResumeMode(DefaultOptions(), disk) == ColdStart
  {
  }

  /** The options that read back one slot of a run's restart files. */
  function ResumeFrom(slot: (string, string), onlyLoadDesign: bool, workdir: Option<string>): (o: Options)
    ensures o.restart && o.onlyLoadDesign == onlyLoadDesign
    ensures VecPath(o) == slot.0 && ItrPath(o) == slot.1
  {
    Options(true, onlyLoadDesign, workdir, Some(slot.0), Some(slot.1))
  }

  /**
   * Write, then restart from the slot just written: the new run continues
   * from exactly the iteration, fscale and vectors the old run dumped.
   */
  lemma ContinueFromWrittenSlot(
    c: Checkpointer, itr: int, fscale: real, snap: Snapshot, cur: Restored, m: nat, workdir: Option<string>)
    requires c.restart && c.names.Distinct()
    requires |snap.x| == |cur.x| && |snap.xPhys| == |cur.xPhys| && |snap.xo1| == |cur.xo1|
    requires |snap.xo2| == |cur.xo2| && |snap.U| == |cur.U| && |snap.L| == |cur.L|
    ensures var disk := Write(c, itr, fscale, snap).after.disk;
      var o := ResumeFrom(TargetFiles(c.names, !c.flip), false, workdir);
      Start(o, disk, cur, m)
        == StartResult(
             Restored(snap.x, snap.xPhys, snap.xo1, snap.xo2, snap.U, snap.L, itr, fscale),
             FromHistory(|cur.x|, m, itr, snap.xo1, snap.xo2, snap.U, snap.L,
                         DesignStateStore.Constant(m, CoefficientA),
                         DesignStateStore.Constant(m, CoefficientC),
                         DesignStateStore.Constant(m, CoefficientD)))
  {
    RoundTrip(c, itr, fscale, snap, cur);
  }

  /** Write, then restart design-only from that slot: the optimizer starts from the dumped x. */
  lemma DesignOnlyFromWrittenSlot(
    c: Checkpointer, itr: int, fscale: real, snap: Snapshot, cur: Restored, m: nat, workdir: Option<string>)
    requires c.restart && c.names.Distinct()
    requires |snap.x| == |cur.x| && |snap.xPhys| == |cur.xPhys| && |snap.xo1| == |cur.xo1|
    requires |snap.xo2| == |cur.xo2| && |snap.U| == |cur.U| && |snap.L| == |cur.L|
    ensures var disk := Write(c, itr, fscale, snap).after.disk;
      var r := Start(ResumeFrom(TargetFiles(c.names, !c.flip), true, workdir), disk, cur, m);
      && r.mma.FromDesign? && r.mma.x == snap.x
      && r.state.itr == itr && r.state.fscale == fscale
  {
    RoundTrip(c, itr, fscale, snap, cur);
  }
}
