/**
 * The restart files of TopOpt as values: the four file names built from the
 * work directory, the 12-vector container and the (itr, fscale) sidecar a
 * write produces, the alternation between the two slots, and what a later
 * start-up reads back from one slot.
 *
 * The file system is a map from path to record; a path exists when it is a
 * key of the map.
 */
module RestartCheckpoint {
  import opened Wrappers
  import opened DesignStateStore

  /** What one restart file holds: the binary vector container or the ASCII sidecar. */
  datatype Record = Container(vectors: seq<Vector>) | Sidecar(itr: int, fscale: real)

  type Disk = map<string, Record>

  /** fexists: the empty path never names a file. */
  predicate FileExists(disk: Disk, path: string)
    ensures FileExists(disk, path) ==> path in disk
    ensures path == "" ==> !FileExists(disk, path)
    ensures path != "" && path in disk ==> FileExists(disk, path)
  {
    path != "" && path in disk
  }

  /** The two slots: a vector container and its sidecar each. */
  datatype SlotNames = SlotNames(vec00: string, itr00: string, vec01: string, itr01: string)
  {
    /** Four different, non-empty paths. */
    predicate Distinct()
    {
      && vec00 != "" && itr00 != "" && vec01 != "" && itr01 != ""
      && vec00 != itr00 && vec00 != vec01 && vec00 != itr01
      && itr00 != vec01 && itr00 != itr01 && vec01 != itr01
    }
  }

  const DefaultWorkdir: string := "./"

  /** The work directory: the -workdir option when it is given, "./" otherwise. */
  function Workdir(option: Option<string>): (w: string)
    ensures option.None? ==> w == DefaultWorkdir
    ensures option.Some? ==> w == option.value
  {
    option.GetOr(DefaultWorkdir)
  }

  /** The four names the work directory prefixes. */
  function SlotNamesFor(workdir: string): (names: SlotNames)
    ensures names.vec00 == workdir + "/Restart00.dat"
    ensures names.itr00 == workdir + "/Restart00_itr_f0.dat"
    ensures names.vec01 == workdir + "/Restart01.dat"
    ensures names.itr01 == workdir + "/Restart01_itr_f0.dat"
  {
    SlotNames(workdir + "/Restart00.dat", workdir + "/Restart00_itr_f0.dat",
              workdir + "/Restart01.dat", workdir + "/Restart01_itr_f0.dat")
  }

  lemma PrefixCancels(w: string, a: string, b: string)
    requires w + a == w + b
    ensures a == b
  {
    assert a == (w + a)[|w|..];
    assert b == (w + b)[|w|..];
  }

  /** Whatever the work directory, the four files are four different paths. */
  lemma SlotNamesDistinct(workdir: string)
    ensures SlotNamesFor(workdir).Distinct()
  {
    var names := SlotNamesFor(workdir);
    var suffixes := ["/Restart00.dat", "/Restart00_itr_f0.dat", "/Restart01.dat", "/Restart01_itr_f0.dat"];
    assert suffixes[0][9] != suffixes[2][9] && suffixes[1][9] != suffixes[3][9];
    forall i, j | 0 <= i < j < 4
      ensures workdir + suffixes[i] != workdir + suffixes[j]
    {
      if workdir + suffixes[i] == workdir + suffixes[j] {
        PrefixCancels(workdir, suffixes[i], suffixes[j]);
        assert false;
      }
    }
    assert names.vec00 == workdir + suffixes[0] && names.itr00 == workdir + suffixes[1];
    assert names.vec01 == workdir + suffixes[2] && names.itr01 == workdir + suffixes[3];
  }

  /** The vectors a write dumps, in the fields' own names. */
  datatype Snapshot = Snapshot(
    x: Vector, xPhys: Vector, xo1: Vector, xo2: Vector, U: Vector, L: Vector,
    xPassive0: Vector, xPassive1: Vector, xPassive2: Vector, xPassive3: Vector,
    nodeDensity: Vector, nodeAddingCounts: Vector)

  /** The container a write produces: twelve vectors, in the order WriteOrder states. */
  function ContainerOrder(s: Snapshot): (vs: seq<Vector>)
    ensures |vs| == 12
  {
    [s.x, s.xPhys, s.xo1, s.xo2, s.U, s.L,
     s.xPassive0, s.xPassive1, s.xPassive2, s.xPassive3, s.nodeDensity, s.nodeAddingCounts]
  }

  /** The write order: the six the optimizer needs first, then the six added later. */
  lemma WriteOrder(s: Snapshot)
    ensures var vs := ContainerOrder(s);
      && vs[0] == s.x && vs[1] == s.xPhys && vs[2] == s.xo1
      && vs[3] == s.xo2 && vs[4] == s.U && vs[5] == s.L
      && vs[6] == s.xPassive0 && vs[7] == s.xPassive1 && vs[8] == s.xPassive2
      && vs[9] == s.xPassive3 && vs[10] == s.nodeDensity && vs[11] == s.nodeAddingCounts
  {
  }

  /** The state a start-up loads from a restart point. */
  datatype Restored = Restored(
    x: Vector, xPhys: Vector, xo1: Vector, xo2: Vector, U: Vector, L: Vector,
    itr: int, fscale: real)

  /**
   * VecLoad of the k-th vector of a container into a vector of the current
   * layout: a missing entry, a size mismatch or a file that is no container
   * leaves the target as it was.
   */
  function LoadVector(rec: Record, k: nat, cur: Vector): (v: Vector)
    ensures |v| == |cur|
    ensures rec.Container? && k < |rec.vectors| && |rec.vectors[k]| == |cur| ==> v == rec.vectors[k]
    ensures !(rec.Container? && k < |rec.vectors| && |rec.vectors[k]| == |cur|) ==> v == cur
  {
    if rec.Container? && k < |rec.vectors| && |rec.vectors[k]| == |cur| then rec.vectors[k] else cur
  }

  /**
   * Reading a restart point: the first six container entries in write order
   * into x, xPhys, xo1, xo2, U, L, then iteration and fscale from the
   * sidecar (a sidecar that is not one leaves both as they were).
   */
  function ReadBack(vecRec: Record, itrRec: Record, cur: Restored): (r: Restored)
    ensures |r.x| == |cur.x| && |r.xPhys| == |cur.xPhys| && |r.xo1| == |cur.xo1|
    ensures |r.xo2| == |cur.xo2| && |r.U| == |cur.U| && |r.L| == |cur.L|
    ensures itrRec.Sidecar? ==> r.itr == itrRec.itr && r.fscale == itrRec.fscale
    ensures !itrRec.Sidecar? ==> r.itr == cur.itr && r.fscale == cur.fscale
  {
    Restored(
      LoadVector(vecRec, 0, cur.x), LoadVector(vecRec, 1, cur.xPhys),
      LoadVector(vecRec, 2, cur.xo1), LoadVector(vecRec, 3, cur.xo2),
      LoadVector(vecRec, 4, cur.U), LoadVector(vecRec, 5, cur.L),
      if itrRec.Sidecar? then itrRec.itr else cur.itr,
      if itrRec.Sidecar? then itrRec.fscale else cur.fscale)
  }

  /** The writer's share of the TopOpt object: the gate, the slot selector, the names, the disk. */
  datatype Checkpointer = Checkpointer(restart: bool, flip: bool, names: SlotNames, disk: Disk)

  /** The slot a write goes to, chosen by flip after it has been toggled. */
  function TargetFiles(names: SlotNames, flipAfter: bool): (t: (string, string))
    ensures !flipAfter ==> t == (names.vec00, names.itr00)
    ensures flipAfter ==> t == (names.vec01, names.itr01)
  {
    if !flipAfter then (names.vec00, names.itr00) else (names.vec01, names.itr01)
  }

  datatype WriteResult = WriteResult(status: int, after: Checkpointer)

  /**
   * WriteRestartFiles: refused with -1 when restart is off; otherwise flip
   * toggles, the sidecar and then the container of the selected slot are
   * written.
   */
  function Write(c: Checkpointer, itr: int, fscale: real, snap: Snapshot): (r: WriteResult)
    ensures !c.restart ==> r.status == -1 && r.after == c
    ensures c.restart ==> r.status == 0
    ensures r.after.restart == c.restart && r.after.names == c.names
    ensures c.restart ==> r.after.flip == !c.flip
  {
    if !c.restart then
      WriteResult(-1, c)
    else
      var flip := !c.flip;
      var (vec, itrFile) := TargetFiles(c.names, flip);
      var disk := c.disk[itrFile := Sidecar(itr, fscale)][vec := Container(ContainerOrder(snap))];
      WriteResult(0, c.(flip := flip, disk := disk))
  }

  /**
   * What a write that proceeds does to the disk: the selected slot gets the
   * container and the sidecar, every other file keeps its record.
   */
  lemma WriteEffect(c: Checkpointer, itr: int, fscale: real, snap: Snapshot)
    requires c.restart
    ensures var (vec, itrFile) := TargetFiles(c.names, !c.flip);
      var after := Write(c, itr, fscale, snap).after.disk;
      && after.Keys == c.disk.Keys + {vec, itrFile}
      && (vec != itrFile ==> after[itrFile] == Sidecar(itr, fscale))
      && after[vec] == Container(ContainerOrder(snap))
      && (forall p :: p in c.disk && p != vec && p != itrFile ==> after[p] == c.disk[p])
  {
  }

  /** One checkpoint request: the iteration, the objective scale and the vectors. */
  datatype Dump = Dump(itr: int, fscale: real, snap: Snapshot)

  /**
   * A run of checkpoint requests, applied in order: the optimisation loop
   * calling WriteRestartFiles once per dump, which is what the alternation
   * lemmas below quantify over.
   */
  function WriteAll(c: Checkpointer, dumps: seq<Dump>): (after: Checkpointer)
    decreases |dumps|
  {
    if dumps == [] then c
    else
      var d := dumps[|dumps| - 1];
      Write(WriteAll(c, dumps[..|dumps| - 1]), d.itr, d.fscale, d.snap).after
  }

  /** The run's last dump is written on top of what the rest of the run left. */
  lemma WriteAllLast(c: Checkpointer, dumps: seq<Dump>)
    requires dumps != []
    ensures var d := dumps[|dumps| - 1];
      WriteAll(c, dumps) == Write(WriteAll(c, dumps[..|dumps| - 1]), d.itr, d.fscale, d.snap).after
  {
  }

  /** A refused write is refused forever: nothing is ever written with restart off. */
  lemma {:induction false} RefusedWritesChangeNothing(c: Checkpointer, dumps: seq<Dump>)
    requires !c.restart
    ensures WriteAll(c, dumps) == c
    decreases |dumps|
  {
    if dumps != [] {
      RefusedWritesChangeNothing(c, dumps[..|dumps| - 1]);
    }
  }

  /** With restart on, flip after k writes is the initial flip toggled k times. */
  lemma {:induction false} FlipParity(c: Checkpointer, dumps: seq<Dump>)
    requires c.restart
    ensures WriteAll(c, dumps).restart && WriteAll(c, dumps).names == c.names
    ensures WriteAll(c, dumps).flip == (c.flip == (|dumps| % 2 == 0))
    decreases |dumps|
  {
    if dumps != [] {
      FlipParity(c, dumps[..|dumps| - 1]);
    }
  }

  lemma ParityStep(k: nat)
    ensures ((k + 1) % 2 == 0) == (k % 2 == 1)
  {
  }

  /** The slot of the k-th write (counting from 1) of a run that starts with flip set: odd to 00, even to 01. */
  function SlotOfWrite(names: SlotNames, k: nat): (t: (string, string))
    ensures k % 2 == 1 ==> t == (names.vec00, names.itr00)
    ensures k % 2 == 0 ==> t == (names.vec01, names.itr01)
  {
    TargetFiles(names, k % 2 == 0)
  }

  /** The record a dump leaves in each file of its slot. */
  predicate Holds(disk: Disk, slot: (string, string), d: Dump)
  {
    && slot.0 in disk && disk[slot.0] == Container(ContainerOrder(d.snap))
    && slot.1 in disk && disk[slot.1] == Sidecar(d.itr, d.fscale)
  }

  /**
   * From the start-up state (restart on, flip set) the N-th write lands in
   * slot 00 when N is odd and in slot 01 when N is even.
   */
  lemma SlotSchedule(c: Checkpointer, dumps: seq<Dump>)
    requires c.restart && c.flip && c.names.Distinct() && dumps != []
    ensures Holds(WriteAll(c, dumps).disk, SlotOfWrite(c.names, |dumps|), dumps[|dumps| - 1])
  {
    var prefix := dumps[..|dumps| - 1];
    FlipParity(c, prefix);
    var before := WriteAll(c, prefix);
    var d := dumps[|dumps| - 1];
    assert WriteAll(c, dumps) == Write(before, d.itr, d.fscale, d.snap).after;
    ParityStep(|prefix|);
    assert !before.flip == (|dumps| % 2 == 0);
    WriteEffect(before, d.itr, d.fscale, d.snap);
  }

  /** Two slots, two iterations: after N >= 2 writes the slots hold the last two dumps. */
  lemma LastTwoSlots(c: Checkpointer, dumps: seq<Dump>)
    requires c.restart && c.flip && c.names.Distinct() && |dumps| >= 2
    ensures Holds(WriteAll(c, dumps).disk, SlotOfWrite(c.names, |dumps|), dumps[|dumps| - 1])
    ensures Holds(WriteAll(c, dumps).disk, SlotOfWrite(c.names, |dumps| - 1), dumps[|dumps| - 2])
  {
    SlotSchedule(c, dumps);
    PreviousSlotKept(c, dumps);
  }

  /** The write before the last one is still in the slot the last write did not choose. */
  lemma PreviousSlotKept(c: Checkpointer, dumps: seq<Dump>)
    requires c.restart && c.flip && c.names.Distinct() && |dumps| >= 2
    ensures Holds(WriteAll(c, dumps).disk, SlotOfWrite(c.names, |dumps| - 1), dumps[|dumps| - 2])
  {
    var N := |dumps|;
    var prefix := dumps[..N - 1];
    assert prefix[|prefix| - 1] == dumps[N - 2];
    SlotSchedule(c, prefix);
    FlipParity(c, prefix);
    WriteAllLast(c, dumps);
    // the N-th write goes to the slot the current flip does not select,
    // which is the slot of write N - 1
    StillHolds(WriteAll(c, prefix), dumps[N - 1], dumps[N - 2]);
  }

  /** A dump held by the slot the current flip selects survives the next write. */
  lemma StillHolds(c: Checkpointer, d: Dump, e: Dump)
    requires c.restart && c.names.Distinct()
    requires Holds(c.disk, TargetFiles(c.names, c.flip), e)
    ensures Holds(Write(c, d.itr, d.fscale, d.snap).after.disk, TargetFiles(c.names, c.flip), e)
  {
    OtherSlotUntouched(c, d.itr, d.fscale, d.snap);
  }

  /** A write leaves the slot it did not choose exactly as it was. */
  lemma OtherSlotUntouched(c: Checkpointer, itr: int, fscale: real, snap: Snapshot)
    requires c.restart && c.names.Distinct()
    ensures var other := TargetFiles(c.names, c.flip);
      var after := Write(c, itr, fscale, snap).after.disk;
      && (other.0 in c.disk ==> other.0 in after && after[other.0] == c.disk[other.0])
      && (other.1 in c.disk ==> other.1 in after && after[other.1] == c.disk[other.1])
  {
  }

  /** Reading back the slot just written reproduces what the optimizer needs. */
  lemma RoundTrip(c: Checkpointer, itr: int, fscale: real, snap: Snapshot, cur: Restored)
    requires c.restart && c.names.Distinct()
    requires |snap.x| == |cur.x| && |snap.xPhys| == |cur.xPhys| && |snap.xo1| == |cur.xo1|
    requires |snap.xo2| == |cur.xo2| && |snap.U| == |cur.U| && |snap.L| == |cur.L|
    ensures var (vec, itrFile) := TargetFiles(c.names, !c.flip);
      var disk := Write(c, itr, fscale, snap).after.disk;
      && FileExists(disk, vec) && FileExists(disk, itrFile)
      && ReadBack(disk[vec], disk[itrFile], cur)
         == Restored(snap.x, snap.xPhys, snap.xo1, snap.xo2, snap.U, snap.L, itr, fscale)
  {
    WriteOrder(snap);
  }
}
