/**
 * The checkpoint/restart fields of the TopOpt object and the two methods
 * that update them: AllocateMMAwithRestart (start-up) and WriteRestartFiles
 * (one dump). The design fields they read and load live in the design-state
 * store the manager is attached to; the file system is a field.
 */
module CheckpointManager {
  import opened Wrappers
  import opened RestartCheckpoint
  import opened OptimizerStateFactory
  import opened DesignStateStore

  /** The four vectors mma->Restart copies out of the optimizer before a dump. */
  datatype History = History(xo1: Vector, xo2: Vector, U: Vector, L: Vector)

  class RestartManager {
    /** The design-state store of the same TopOpt object. */
    const design: DesignStateStore.DesignState
    var restart: bool
    var flip: bool
    var names: SlotNames
    /** The file system. */
    var disk: Disk
    var xo1: Vector
    var xo2: Vector
    var U: Vector
    var L: Vector
    /** False while xo1, xo2, U and L are NULL. */
    var historyAllocated: bool

    /** The writer's fields as a value. */
    function View(): Checkpointer
      reads this
    {
      Checkpointer(restart, flip, names, disk)
    }

    /**
     * The gate write relies on: whenever restart is on, the history vectors
     * exist (they were duplicated from x together with turning it on).
     */
    ghost predicate Valid()
      reads this
    {
      restart ==> historyAllocated
    }

    /**
     * Construction: SetUp leaves restart on while the history vectors are
     * still NULL, so no dump is possible before start-up.
     */
    constructor (design: DesignStateStore.DesignState, disk: Disk)
      ensures this.design == design && this.disk == disk
      ensures restart && !historyAllocated && !Valid()
    {
      this.design := design;
      this.disk := disk;
      restart := true;
      flip := true;
      names := SlotNames("", "", "", "");
      xo1, xo2, U, L := [], [], [], [];
      historyAllocated := false;
    }

    /**
     * AllocateMMAwithRestart: sets up the writer (restart from the options,
     * flip on, the names under the work directory), duplicates the history
     * vectors when restart is on, and performs the start-up `Start` describes,
     * loading into x, xPhys, fscale and the history vectors.
     */
    method Allocate(o: Options, itr: int) returns (itrOut: int, mma: MmaInit)
      requires design.isSetUp && design.Layout()
      modifies this`restart, this`flip, this`names, this`historyAllocated
      modifies this`xo1, this`xo2, this`U, this`L, design`x, design`xPhys, design`fscale
      ensures Valid()
      ensures |design.x| == design.n && |design.xPhys| == design.n
      ensures restart == o.restart && flip
      ensures names == SlotNamesFor(Workdir(o.workdir)) && disk == old(disk)
      ensures o.restart ==> historyAllocated
      ensures o.restart ==> |xo1| == design.n && |xo2| == design.n && |U| == design.n && |L| == design.n
      ensures !o.restart ==> historyAllocated == old(historyAllocated)
      ensures !o.restart ==> xo1 == old(xo1) && xo2 == old(xo2) && U == old(U) && L == old(L)
      ensures var r := Start(o, old(disk),
                             Restored(old(design.x), old(design.xPhys), xo1, xo2, U, L, itr, old(design.fscale)),
                             design.m);
        && mma == r.mma && itrOut == r.state.itr
        && design.x == r.state.x && design.xPhys == r.state.xPhys && design.fscale == r.state.fscale
        && xo1 == r.state.xo1 && xo2 == r.state.xo2 && U == r.state.U && L == r.state.L
    {
      var a, c, d := MmaCoefficients(design.m);
      ConfigureWriter(o);
      if restart {
        DuplicateHistory();
      }
      ghost var cur := Restored(design.x, design.xPhys, xo1, xo2, U, L, itr, design.fscale);
      itrOut, mma := StartUp(o, itr, a[..], c[..], d[..]);
      LoadedHistoryIsStable(o, disk, cur, design.m);
    }

    /** The writer's gate, slot selector and file names. */
    method ConfigureWriter(o: Options)
      modifies this`restart, this`flip, this`names
      ensures restart == o.restart && flip && names == SlotNamesFor(Workdir(o.workdir))
    {
      restart := o.restart;
      flip := true;
      names := SlotNamesFor(Workdir(o.workdir));
    }

    /** xo1, xo2, U and L duplicate x. */
    method DuplicateHistory()
      modifies this`xo1, this`xo2, this`U, this`L, this`historyAllocated
      ensures historyAllocated
      ensures |xo1| == |design.x| && |xo2| == |design.x| && |U| == |design.x| && |L| == |design.x|
    {
      xo1 := DesignStateStore.NewVector(|design.x|);
      xo2 := DesignStateStore.NewVector(|design.x|);
      U := DesignStateStore.NewVector(|design.x|);
      L := DesignStateStore.NewVector(|design.x|);
      historyAllocated := true;
    }

    /** The resume decision, the reads it makes and the MMA constructor it calls. */
    method StartUp(o: Options, itr: int, a: seq<real>, c: seq<real>, d: seq<real>) returns (itrOut: int, mma: MmaInit)
      requires restart == o.restart
      requires a == DesignStateStore.Constant(design.m, CoefficientA)
      requires c == DesignStateStore.Constant(design.m, CoefficientC)
      requires d == DesignStateStore.Constant(design.m, CoefficientD)
      modifies this`xo1, this`xo2, this`U, this`L, design`x, design`xPhys, design`fscale
      ensures var r := Start(o, disk,
                             Restored(old(design.x), old(design.xPhys), old(xo1), old(xo2), old(U), old(L),
                                      itr, old(design.fscale)),
                             design.m);
        && mma == r.mma && itrOut == r.state.itr
        && design.x == r.state.x && design.xPhys == r.state.xPhys && design.fscale == r.state.fscale
        && xo1 == r.state.xo1 && xo2 == r.state.xo2 && U == r.state.U && L == r.state.L
    {
      var vecFile := FileExists(disk, VecPath(o));
      var itrFile := FileExists(disk, ItrPath(o));
      var nGlobalDesignVar := |design.x|;
      itrOut := itr;
      if restart && vecFile && itrFile {
        LoadRestartPoint(VecPath(o));
        itrOut := LoadSidecar(ItrPath(o), itr);
        if o.onlyLoadDesign {
          mma := FromDesign(nGlobalDesignVar, design.m, design.x, a, c, d);
        } else {
          mma := FromHistory(nGlobalDesignVar, design.m, itrOut, xo1, xo2, U, L, a, c, d);
        }
      } else {
        mma := FromDesign(nGlobalDesignVar, design.m, design.x, a, c, d);
      }
    }

    /** The six VecLoad calls, in write order, from the container at `vecPath`. */
    method LoadRestartPoint(vecPath: string)
      requires vecPath in disk
      modifies this`xo1, this`xo2, this`U, this`L, design`x, design`xPhys
      ensures var rec := disk[vecPath];
        && design.x == LoadVector(rec, 0, old(design.x)) && design.xPhys == LoadVector(rec, 1, old(design.xPhys))
        && xo1 == LoadVector(rec, 2, old(xo1)) && xo2 == LoadVector(rec, 3, old(xo2))
        && U == LoadVector(rec, 4, old(U)) && L == LoadVector(rec, 5, old(L))
    {
      var rec := disk[vecPath];
      design.x := LoadVector(rec, 0, design.x);
      design.xPhys := LoadVector(rec, 1, design.xPhys);
      xo1 := LoadVector(rec, 2, xo1);
      xo2 := LoadVector(rec, 3, xo2);
      U := LoadVector(rec, 4, U);
      L := LoadVector(rec, 5, L);
    }

    /** Iteration and fscale from the sidecar at `itrPath`. */
    method LoadSidecar(itrPath: string, itr: int) returns (itrOut: int)
      requires itrPath in disk
      modifies design`fscale
      ensures var rec := disk[itrPath];
        && (rec.Sidecar? ==> itrOut == rec.itr && design.fscale == rec.fscale)
        && (!rec.Sidecar? ==> itrOut == itr && design.fscale == old(design.fscale))
    {
      var rec := disk[itrPath];
      itrOut := itr;
      if rec.Sidecar? {
        itrOut := rec.itr;
        design.fscale := rec.fscale;
      }
    }

    /** The vectors the next dump writes, in the fields' own names. */
    function CurrentSnapshot(): (s: Snapshot)
      reads this`xo1, this`xo2, this`U, this`L, design`x, design`xPhys
      reads design`xPassive0, design`xPassive1, design`xPassive2, design`xPassive3
      reads design`nodeDensity, design`nodeAddingCounts
      ensures s.x == design.x && s.xPhys == design.xPhys
      ensures s.xo1 == xo1 && s.xo2 == xo2 && s.U == U && s.L == L
      ensures s.xPassive0 == design.xPassive0 && s.xPassive1 == design.xPassive1
      ensures s.xPassive2 == design.xPassive2 && s.xPassive3 == design.xPassive3
      ensures s.nodeDensity == design.nodeDensity && s.nodeAddingCounts == design.nodeAddingCounts
    {
      Snapshot(design.x, design.xPhys, xo1, xo2, U, L,
               design.xPassive0, design.xPassive1, design.xPassive2, design.xPassive3,
               design.nodeDensity, design.nodeAddingCounts)
    }

    /**
     * WriteRestartFiles: refused with -1 and no change when restart is off;
     * otherwise the history is copied in, flip toggles and the selected slot
     * gets the sidecar and the container, as `Write` describes.
     */
    method WriteRestartFiles(itr: int, history: History) returns (status: int)
      requires Valid()
      modifies this`flip, this`disk, this`xo1, this`xo2, this`U, this`L
      ensures Valid()
      ensures old(restart) ==> xo1 == history.xo1 && xo2 == history.xo2 && U == history.U && L == history.L
      ensures !old(restart) ==> flip == old(flip) && disk == old(disk)
      ensures !old(restart) ==> xo1 == old(xo1) && xo2 == old(xo2) && U == old(U) && L == old(L)
      ensures var w := Write(old(View()), itr, design.fscale, CurrentSnapshot());
        status == w.status && View() == w.after
    {
      if !restart {
        return -1;
      }
      xo1, xo2, U, L := history.xo1, history.xo2, history.U, history.L;
      ToggleFlip();
      DumpSlot(itr);
      status := 0;
    }

    /** Choose the other slot. */
    method ToggleFlip()
      modifies this`flip
      ensures flip == !old(flip)
    {
      if flip {
        flip := false;
      } else {
        flip := true;
      }
    }

    /** The sidecar and then the container of the slot flip selects. */
    method DumpSlot(itr: int)
      modifies this`disk
      ensures var (vecFile, itrFile) := TargetFiles(names, flip);
        disk == old(disk)[itrFile := Sidecar(itr, design.fscale)][vecFile := Container(ContainerOrder(CurrentSnapshot()))]
    {
      var vecFile, itrFile;
      if !flip {
        vecFile, itrFile := names.vec00, names.itr00;
      } else {
        vecFile, itrFile := names.vec01, names.itr01;
      }
      disk := disk[itrFile := Sidecar(itr, design.fscale)];
      disk := disk[vecFile := Container(ContainerOrder(CurrentSnapshot()))];
    }
  }
}
