# TopOpt set-up and checkpoint/restart, modelled in Dafny

This project models the sequential logic inside `TopOpt.cc`, the problem
object of a PETSc topology-optimisation code. It covers four pieces.

- **Multigrid gate and mesh (`mesh.dfy`, module `MeshBuilder`).**
  `SetUpMESH` accepts a mesh only when, on every axis, the node count less
  one is a multiple of 2^(nlvls-1). Otherwise it names the first failing
  axis (X, then Y, then Z) and exits. On success it builds the node grid,
  then derives the element grid's per-axis ownership tables from the node
  grid's: entry 0 loses one, every other entry is unchanged. The element
  grid has one cell fewer per axis.
- **Design-state store (`design_state.dfy`, module `DesignStateStore`).**
  Class `DesignState` holds every element-domain and node-domain field.
  `SetUpOpt` allocates them with a shared layout and gives them their
  initial contents. It also applies the filter rule for `Xmin`.
- **Checkpoint files (`checkpoint.dfy`, module `RestartCheckpoint`).**
  - The file system is a map from path to record.
  - A write is refused with -1 when restart is off. Otherwise it toggles
    `flip`, then writes the `(itr, fscale)` sidecar and the 12-vector
    container of the selected slot.
  - A run of writes alternates between slot `Restart00` and slot
    `Restart01`.
  - A read takes the first six vectors back in write order, then `itr` and
    `fscale`.
- **Start-up (`optimizer_factory.dfy`, module `OptimizerStateFactory`).**
  The MMA coefficients are fixed. The resume decision picks cold start,
  design-only or continue. The MMA constructor called is a value:
  `FromDesign` or `FromHistory`.
- **Manager class (`checkpoint_manager.dfy`, module `CheckpointManager`).**
  Class `RestartManager` has the checkpoint fields of the TopOpt object. Its
  methods `Allocate` (AllocateMMAwithRestart) and `WriteRestartFiles` are
  proved against the functions above.
- **Set-up chain (`setup.dfy`, module `TopOptSetUp`).** `SetUp` runs
  `SetUpMESH`, then `SetUpOPT`. It ends before any state exists when the
  gate fails.

What the model assumes:

- A distributed PETSc vector is its global contents, a `seq<real>`. Two
  vectors share a layout when they have the same length.
- A file exists when its path is a key of the disk map and the path is not
  empty.
- The options are inputs: `Options` and `OptOptions`, plus the extents, the
  levels and the ownership tables PETSc chooses.
- `mma->Restart` supplies four vectors, passed in as a `History` value.

## Model

| member | source | states |
|---|---|---|
| MeshBuilder.CheckLevels | TopOpt.cc:386-406 | the 2-D gate passes iff every axis satisfies `(n-1) mod 2^(nlvls-1) == 0` (nlvls < 1 fails, as the source's test does while \|n-1\| * 2^(1-nlvls) stays within the double range); a failure names the first failing axis, all earlier axes passing |
| MeshBuilder.Pow2 | TopOpt.cc:386 | the divisor 2^k is at least 1 and even for k >= 1 |
| MeshBuilder.AxisCompatible | TopOpt.cc:388-389 | the per-axis test `(n-1) mod 2^(nlvls-1) == 0`: only nlvls >= 1 can pass, and an axis of one node always passes |
| MeshBuilder.CheckFrom | TopOpt.cc:549-579 | the axis checks from k on, in X, Y, Z order: compatible iff all remaining axes pass, otherwise the first failing axis at or after k |
| MeshBuilder.AxisCompatibleIffHalvable | TopOpt.cc:386-395 | an axis passes iff its element count can be halved nlvls-1 times without remainder, the reading the diagnostic gives |
| MeshBuilder.DivisibleIffHalvable | TopOpt.cc:386-389 | k is a multiple of 2^t iff k halves evenly t times |
| MeshBuilder.DefaultNodeCounts | TopOpt.cc:113-284 | the compiled-in node counts of the six variants: two axes in 2-D, three in 3-D, each with at least 2 nodes |
| MeshBuilder.DefaultsCompatible | TopOpt.cc:113-114 | every compiled-in default mesh (2-D 241x121, 241x121, 201x249; 3-D 65x33x33, 81x41x9, 49x65x49) with nlvls = 4 passes the gate and has 2 or 3 axes |
| MeshBuilder.OddElementCountRejected | TopOpt.cc:386-406 | 242 nodes on X fail with axis 0; 10 nodes on Z fail with axis 2 after X and Y pass |
| MeshBuilder.ElementRanges | TopOpt.cc:476-487 | the derived table has the node table's length, entry 0 one less, all other entries equal |
| MeshBuilder.ElementRangesSum | TopOpt.cc:491-492 | a node table distributing n nodes derives an element table distributing n - 1 cells, the size the element grid is created with |
| MeshBuilder.DeriveElementRanges | TopOpt.cc:656-673 | the copy-and-decrement loop produces exactly the derived table |
| MeshBuilder.AlignedElementsCovered | TopOpt.cc:677-678 | in an aligned mesh each axis's element table has the node table's rank count and distributes exactly the element extent |
| MeshBuilder.SetUpMesh | TopOpt.cc:386-492 | exits iff the gate fails, naming the same axis; otherwise the node grid is the given one and the element grid is aligned with it (extent n - 1 and derived table per axis) |
| DesignStateStore.Constant | TopOpt.cc:764-768 | VecSet: every one of the n entries equals the value |
| DesignStateStore.NewVector | TopOpt.cc:759-762 | VecDuplicate: the new vector has the requested layout |
| DesignStateStore.NewVectors | TopOpt.cc:774-775 | VecDuplicateVecs: count vectors, each of the requested layout |
| DesignStateStore.EffectiveXmin | TopOpt.cc:753-756 | filter 0 forces Xmin to exactly 0.001, which is positive; any other filter keeps the configured Xmin |
| DesignStateStore.DefaultOptOptions | TopOpt.cc:200-201 | the default filter is the density filter (1) and the default Xmin is 0 |
| DesignStateStore.DefaultsKeepXmin | TopOpt.cc:200-201 | the default options use the density filter, so the filter rule keeps the configured Xmin 0 |
| DesignStateStore.DesignState.constructor | TopOpt.cc:31-56 | TopOpt(nconstraints) up to Init's NULL block, before the SetUp call at line 58: m is nconstraints (line 21) and no vector exists yet |
| DesignStateStore.DesignState.Default | TopOpt.cc:25-27 | TopOpt() up to Init's NULL block, before the SetUp call at line 58: m is 1 and no vector exists yet |
| DesignStateStore.DesignState.SetUpOpt | TopOpt.cc:699-818 | the layout invariant holds; n is the element count; x, xTilde, xPhys, xold are all volfrac; dfdx and all m gradients are zero; the passive masks and both node fields are zero; gx is a fresh m-array; the Xmin filter rule; fscale unchanged |
| DesignStateStore.DesignState.AllocateDesign | TopOpt.cc:702-769 | the grid vectors, the options with the Xmin rule, a fresh m-entry gx, and x, xTilde, xPhys at volfrac |
| DesignStateStore.DesignState.AllocateDerived | TopOpt.cc:771-818 | dfdx and the m gradients zero, xmin and xmax of length n, xold at volfrac, the passive masks and both node fields zero |
| DesignStateStore.DesignState.CreateGridVectors | TopOpt.cc:702-708 | xPhys on the element grid, nodeDensity on the node grid, n is xPhys's size |
| DesignStateStore.DesignState.ApplyOptions | TopOpt.cc:752-756 | volfrac and filter as read, gx fresh with m entries, Xmin by the filter rule |
| DesignStateStore.DesignState.InitDesign | TopOpt.cc:758-769 | x and xTilde take xPhys's layout; all three hold volfrac |
| DesignStateStore.DesignState.InitSensitivities | TopOpt.cc:771-781 | dfdx is zero and dgdx is m zero vectors of length n, after the zeroing loop |
| DesignStateStore.DesignState.InitBounds | TopOpt.cc:783-791 | xmin and xmax get x's layout without values; xold holds volfrac |
| DesignStateStore.DesignState.InitPassive | TopOpt.cc:793-818 | the four passive masks are zero with xPhys's layout; nodeDensity and nodeAddingCounts are zero with nodeDensity's layout |
| RestartCheckpoint.FileExists | TopOpt.cc:906-915 | a file exists only when its path is on disk; the empty path never exists; every non-empty path on disk does |
| RestartCheckpoint.Workdir | TopOpt.cc:859-866 | the work directory defaults to "./" and is replaced by the option when it is given |
| RestartCheckpoint.SlotNamesFor | TopOpt.cc:867-875 | the four names are the work directory followed by /Restart00.dat, /Restart00_itr_f0.dat, /Restart01.dat, /Restart01_itr_f0.dat |
| RestartCheckpoint.SlotNamesDistinct | TopOpt.cc:867-875 | for every work directory the four names are non-empty and pairwise different |
| RestartCheckpoint.ContainerOrder | TopOpt.cc:1009-1024 | a container holds twelve vectors; WriteOrder gives each position |
| RestartCheckpoint.WriteOrder | TopOpt.cc:1009-1024 | the container holds x, xPhys, xo1, xo2, U, L, xPassive0..3, nodeDensity, nodeAddingCounts at positions 0..11 |
| RestartCheckpoint.LoadVector | TopOpt.cc:929-934 | VecLoad of entry k: the stored vector when present with the target's size, otherwise the target unchanged; the layout never changes |
| RestartCheckpoint.ReadBack | TopOpt.cc:929-940 | a read keeps every layout and takes itr and fscale from a sidecar, leaving them when the file is not one |
| RestartCheckpoint.TargetFiles | TopOpt.cc:982-1001 | flip false after toggling selects the 00 pair, true the 01 pair |
| RestartCheckpoint.Write | TopOpt.cc:964-1032 | with restart off: status -1 and nothing changes; otherwise status 0, flip toggled, restart and names kept |
| RestartCheckpoint.WriteEffect | TopOpt.cc:982-1024 | a write that proceeds adds exactly the selected container and sidecar to the disk and leaves every other file's record as it was |
| RestartCheckpoint.RefusedWritesChangeNothing | TopOpt.cc:968-970 | with restart off any number of writes leaves the writer and the disk unchanged |
| RestartCheckpoint.FlipParity | TopOpt.cc:976-980 | after k writes flip is the initial flip toggled k times |
| RestartCheckpoint.SlotOfWrite | TopOpt.cc:839 | from the start-up flip (true), odd-numbered writes go to slot 00 and even-numbered ones to slot 01 |
| RestartCheckpoint.SlotSchedule | TopOpt.cc:976-1001 | after N writes from start-up, slot SlotOfWrite(N) holds the N-th dump's container and sidecar |
| RestartCheckpoint.LastTwoSlots | TopOpt.cc:976-1001 | after N >= 2 writes from start-up, the two slots hold dumps N and N-1 |
| RestartCheckpoint.PreviousSlotKept | TopOpt.cc:976-1001 | after N >= 2 writes the slot of write N-1 still holds dump N-1 |
| RestartCheckpoint.StillHolds | TopOpt.cc:982-1001 | a dump held in the slot the current flip selects survives the next write |
| RestartCheckpoint.OtherSlotUntouched | TopOpt.cc:982-1001 | a write leaves both files of the slot it did not choose as they were |
| RestartCheckpoint.RoundTrip | TopOpt.cc:929-940 | reading back the slot just written finds both files and yields exactly the written x, xPhys, xo1, xo2, U, L, itr and fscale |
| OptimizerStateFactory.MmaCoefficients | TopOpt.cc:827-835 | the loop leaves a = 0, c = 1000, d = 0 in all m entries |
| OptimizerStateFactory.DefaultOptions | TopOpt.cc:838-840 | restart on and onlyLoadDesign off by default; no work directory and no restart files given |
| OptimizerStateFactory.DefaultOptionsColdStart | TopOpt.cc:877-922 | with the default options (no restart files named) every start-up is a cold start, whatever the disk holds |
| OptimizerStateFactory.VecPath | TopOpt.cc:878-885 | the restart container's path is "" unless -restartFileVec is given, then exactly that value |
| OptimizerStateFactory.ItrPath | TopOpt.cc:886-890 | the restart sidecar's path is "" unless -restartFileItr is given, then exactly that value |
| OptimizerStateFactory.Resumes | TopOpt.cc:922 | a restart point is read only with restart on and both files named and on disk |
| OptimizerStateFactory.ResumeMode | TopOpt.cc:922-959 | cold start iff not (restart and both restart files exist); design-only iff resuming with onlyLoadDesign; continue iff resuming without it |
| OptimizerStateFactory.Start | TopOpt.cc:918-959 | every path constructs the optimizer with the current global size, m and the fixed coefficients, and keeps every vector's layout |
| OptimizerStateFactory.LoadedHistoryIsStable | TopOpt.cc:929-934 | a second start-up from what a start-up loaded into the history vectors changes nothing |
| OptimizerStateFactory.ColdStartKeepsState | TopOpt.cc:956-959 | a cold start reads nothing and builds the optimizer from the x in memory |
| OptimizerStateFactory.DesignOnlyUsesLoadedDesign | TopOpt.cc:938-946 | a design-only start loads the restart point (itr and fscale included) and builds the optimizer from the loaded x |
| OptimizerStateFactory.ContinueUsesHistory | TopOpt.cc:947-951 | a continued run builds the optimizer from the loaded itr, xo1, xo2, U and L |
| OptimizerStateFactory.ResumeFrom | TopOpt.cc:877-890 | options naming one slot's container and sidecar as the restart point |
| OptimizerStateFactory.ContinueFromWrittenSlot | TopOpt.cc:929-951 | writing a dump and restarting from that slot continues from exactly the dumped itr, fscale and vectors |
| OptimizerStateFactory.DesignOnlyFromWrittenSlot | TopOpt.cc:938-946 | writing a dump and restarting design-only from that slot starts the optimizer from the dumped x and loads the dumped itr and fscale |
| CheckpointManager.RestartManager.constructor | TopOpt.cc:41-44 | before start-up restart is on while the history vectors are still absent, so the write gate's invariant does not hold yet |
| CheckpointManager.RestartManager.Allocate | TopOpt.cc:823-962 | restart from the options, flip on, the names under the work directory, history vectors of length n when restart is on, x, xPhys, fscale, itr, the history and the optimizer exactly as Start determines; the disk is unchanged |
| CheckpointManager.RestartManager.ConfigureWriter | TopOpt.cc:838-875 | restart as given, flip on, the four names from the work directory |
| CheckpointManager.RestartManager.DuplicateHistory | TopOpt.cc:848-857 | xo1, xo2, U, L take x's layout |
| CheckpointManager.RestartManager.StartUp | TopOpt.cc:907-959 | the fields and the optimizer after the resume decision equal Start of the state before it |
| CheckpointManager.RestartManager.LoadRestartPoint | TopOpt.cc:926-935 | the six VecLoad calls, in write order, into x, xPhys, xo1, xo2, U, L |
| CheckpointManager.RestartManager.LoadSidecar | TopOpt.cc:938-940 | itr and fscale from the sidecar when the file is one |
| CheckpointManager.RestartManager.CurrentSnapshot | TopOpt.cc:1009-1024 | the dump holds the twelve live fields: x, xPhys, the four history vectors, the four passive masks and both node fields |
| CheckpointManager.RestartManager.WriteRestartFiles | TopOpt.cc:964-1032 | with restart off: -1, flip, disk and history unchanged; otherwise the history is copied in and the writer's new state is exactly Write of the old one |
| CheckpointManager.RestartManager.ToggleFlip | TopOpt.cc:976-980 | flip is negated |
| CheckpointManager.RestartManager.DumpSlot | TopOpt.cc:982-1024 | the selected slot gets the sidecar and then the container; nothing else on disk changes |
| TopOptSetUp.GridSize | TopOpt.cc:704-708 | a grid whose extents are all positive has a positive number of points |
| TopOptSetUp.SetUp | TopOpt.cc:336-340 | the rest of the constructor, Init's call to SetUp (lines 22 and 58) on a new DesignState(m): the run exits iff the gate fails, naming that axis, with no state created; otherwise the mesh is aligned and a fresh design store is set up with one variable per element, nodeDof entries per node, and SetUpOPT's initial contents |

## Left out

- PETSc DMDA and Vec creation, coordinates, element types, MPI collectives and the parallel layout beyond vector lengths. These are foreign library calls; the ownership tables are inputs.
- Option parsing and every `PetscPrintf` diagnostic: options are parameters, and the printed text is not modelled.
- The physical spacing, cell-centre coordinates and the `rmin` formula: floating-point numerics.
- STL paths, load vectors, material constants and the `numnodaldof` table, which is configuration data; the node dof count is a parameter of `TopOptSetUp.SetUp`.
- The destructor and the NULL-checked teardown: manual memory management.
- MMA internals: the optimizer is represented by the constructor call it receives, and `mma->Restart` by a `History` argument.
- The binary viewer format, the ASCII `%d`/`%e` formatting and `fexists`: files are abstract records; existence is map membership of a non-empty path.
- RestartCheckpoint.RoundTrip: fscale comes back exact in the model; the source prints it with `%e`, which keeps six significant digits.
- MeshBuilder.CheckLevels: the source compares two double-precision quotients; the model uses integer remainder. For 1 <= nlvls the two agree while the counts stay far below 2^53 and 2^(nlvls-1) fits the integer type PetscInt; a larger divisor overflows the cast, which is undefined behaviour in C++. For nlvls < 1 the integer divisor is 0 and the source's right-hand side is infinite (NaN for one node). Its test then fails, as the model's does, unless \|n-1\| * 2^(1-nlvls) exceeds the double range, about 2^1024. Above that range both sides are infinite and the source lets the axis pass. For example, nlvls = -1100 with 241 nodes fails in the model but passes in the source.
- RestartCheckpoint.ReadBack: a sidecar record of the wrong kind keeps itr and fscale as they were; what C++ stream extraction yields on unreadable text is not modelled. A vector missing from the container, or of another size, keeps its old value; the PETSc error VecLoad reports there is not modelled, because the source ignores it.
- CheckpointManager.RestartManager.Allocate: it does not restate the full layout invariant of the design store afterwards. It promises that x and xPhys keep length n, and its frame leaves all other design fields untouched.
- CheckpointManager.RestartManager.WriteRestartFiles: requires the write-gate invariant (restart implies the history vectors exist). In the source a write before start-up dereferences NULL history vectors.
- DesignStateStore.DesignState.constructor: it stops at Init's NULL block. The source constructor goes on through Init's SetUp call (TopOpt.cc:22, 58) to a set-up object; in the model that step is the separate TopOptSetUp.SetUp, which creates the object and then runs SetUpOpt.
- DesignStateStore.DesignState.Default: it stops at Init's NULL block, like the other constructor. TopOpt() also reaches SetUp through Init (TopOpt.cc:28, 58), and TopOptSetUp.SetUp models that step for the constructor with an explicit constraint count only.
- DesignStateStore.NewVector: the contents of a fresh vector are unspecified, as VecDuplicate and `new[]` leave them.
- TopOptSetUp.SetUp: a mesh that passes the gate must have every extent at least 2, because its element grid would otherwise have no cell on some axis, which DMDA creation does not accept. DMDA creation is not part of this model. A mesh that fails the gate is accepted with any extents and exits before any grid is created.
- The TopOpt constructor leaves `flip` uninitialised until start-up; the model's constructor sets it, and nothing depends on that value.
