/** The HPIPM backend of the QP-solver component contract: options and memory
    sizing and placement, default options, the solve call with its status
    mapping, and the function table that binds the backend.

    The interior-point kernel itself is foreign code. Its memory queries, the
    memory size it records when it builds its workspace and the defaults it
    writes are fields of a `Kernel` record, and what `sizeof` yields for
    each placed struct is a `StructSizes` record. */
module OcpQpHpipm {
  import Arena

  /** The QP dimensions passed through to the kernel; the adapter never reads them. */
  datatype QpDims = QpDims(n: nat, nx: seq<nat>, nu: seq<nat>, nbx: seq<nat>, nbu: seq<nat>,
                           ng: seq<nat>, ns: seq<nat>)

  /** `sizeof` of the adapter's options struct, the kernel's argument struct,
      the adapter's memory struct and the kernel's workspace struct. */
  datatype StructSizes = StructSizes(hpipmOpts: nat, ipmArg: nat, hpipmMemory: nat, ipmWorkspace: nat)

  /** The kernel's argument fields the adapter never touches, kept opaque. */
  datatype KernelFields = KernelFields(reals: seq<real>, ints: seq<int>)

  /** The value of the kernel's argument struct: the eight fields the adapter
      overrides and everything else. */
  datatype IpmArg = IpmArg(resGMax: real, resBMax: real, resDMax: real, resMMax: real,
                           iterMax: int, statMax: int, alphaMin: real, mu0: real,
                           rest: KernelFields)

  /** What the adapter sees of the kernel. */
  datatype Kernel = Kernel(
    argMemsize: QpDims -> nat,                // memory query for the argument block
    ipmMemsize: (QpDims, IpmArg) -> nat,      // memory query for the solver workspace
    createdMemsize: (QpDims, IpmArg) -> nat,  // the memsize the kernel records when it creates its workspace
    defaults: IpmArg)                         // what the kernel's set-default routine writes

  /** Which of the adapter's own assertions stops placement. */
  datatype AssertionFailure = NotAligned | SizeMismatch

  /** The outcome of a placement routine: the handle it returns and where its
      cursor ended, or the assertion that aborts the program. */
  datatype Placement<T> = Placed(handle: T, end: nat) | Aborted(failure: AssertionFailure)

  /** Addresses an options placement produces: the adapter struct, the kernel
      argument struct it points to, and the block given to the kernel. */
  datatype OptsHandle = OptsHandle(args: nat, hpipmOpts: nat, kernelBlock: nat)

  /** Addresses a memory placement produces, and the memsize the kernel recorded. */
  datatype MemoryHandle = MemoryHandle(mem: nat, hpipmWorkspace: nat, kernelBlock: nat, workspaceMemsize: nat)

  // ---------------------------------------------------------------------------
  // Options

  /** The options regions in placement order. */
  function OptsRegions(sz: StructSizes, k: Kernel, dims: QpDims): seq<nat>
  {
    [sz.hpipmOpts, sz.ipmArg, k.argMemsize(dims)]
  }

  /** The options footprint is exactly the sum of its three regions, without padding. */
  function OptsCalculateSize(sz: StructSizes, k: Kernel, dims: QpDims): (size: nat)
    ensures size == Arena.Sum(OptsRegions(sz, k, dims))
    ensures size >= sz.hpipmOpts + sz.ipmArg
  {
    Arena.SumOfThree(sz.hpipmOpts, sz.ipmArg, k.argMemsize(dims));
    sz.hpipmOpts + sz.ipmArg + k.argMemsize(dims)
  }

  /** Carves the options out of the buffer at `rawMemory`. The adapter struct
      sits at the start, the kernel argument struct right after it, then the
      kernel's own block; the cursor must be aligned before that block and
      ends exactly at the planned size. */
  method OptsAssign(sz: StructSizes, k: Kernel, dims: QpDims, rawMemory: nat) returns (r: Placement<OptsHandle>)
    ensures r.Placed? <==> Arena.Aligned(rawMemory + sz.hpipmOpts + sz.ipmArg)
    ensures r.Aborted? ==> r.failure == NotAligned
    ensures Arena.Aligned(rawMemory) && Arena.Aligned(sz.hpipmOpts) && Arena.Aligned(sz.ipmArg) ==> r.Placed?
    ensures r.Placed? ==>
      [r.handle.args, r.handle.hpipmOpts, r.handle.kernelBlock] == Arena.Offsets(rawMemory, OptsRegions(sz, k, dims))
    ensures r.Placed? ==> r.end == rawMemory + OptsCalculateSize(sz, k, dims)
  {
    if Arena.Aligned(rawMemory) && Arena.Aligned(sz.hpipmOpts) && Arena.Aligned(sz.ipmArg) {
      Arena.AlignedAdd(rawMemory, sz.hpipmOpts);
      Arena.AlignedAdd(rawMemory + sz.hpipmOpts, sz.ipmArg);
    }
    var cPtr := rawMemory;
    var args := cPtr;
    cPtr := cPtr + sz.hpipmOpts;
    var hpipmOpts := cPtr;
    cPtr := cPtr + sz.ipmArg;
    if !Arena.Aligned(cPtr) {
      return Aborted(NotAligned);
    }
    var kernelBlock := cPtr;
    cPtr := cPtr + k.argMemsize(dims);
    assert cPtr == rawMemory + OptsCalculateSize(sz, k, dims);
    OffsetsOfThree(rawMemory, OptsRegions(sz, k, dims));
    r := Placed(OptsHandle(args, hpipmOpts, kernelBlock), cPtr);
  }

  /** The values of the eight fields the adapter overrides. */
  const ResGMaxDefault: real := 0.000001
  const ResBMaxDefault: real := 0.00000001
  const ResDMaxDefault: real := 0.00000001
  const ResMMaxDefault: real := 0.00000001
  const IterMaxDefault: int := 50
  const StatMaxDefault: int := 50
  const AlphaMinDefault: real := 0.00000001
  const Mu0Default: real := 1.0

  /** The options after default initialisation: the eight overridden fields
      carry the adapter's values whatever the kernel's defaults were, and every
      other field is the kernel's default. */
  function AdapterDefaults(kernelDefaults: IpmArg): (r: IpmArg)
    ensures r.resGMax == 0.000001
    ensures r.resBMax == 0.00000001 && r.resDMax == 0.00000001 && r.resMMax == 0.00000001
    ensures r.iterMax == 50 && r.statMax == 50
    ensures r.alphaMin == 0.00000001 && r.mu0 == 1.0
    ensures r.rest == kernelDefaults.rest
  {
    kernelDefaults.(resGMax := ResGMaxDefault, resBMax := ResBMaxDefault, resDMax := ResDMaxDefault,
                    resMMax := ResMMaxDefault, iterMax := IterMaxDefault, statMax := StatMaxDefault,
                    alphaMin := AlphaMinDefault, mu0 := Mu0Default)
  }

  /** The kernel's argument struct, updated in place by default initialisation. */
  class IpmArgStruct {
    var resGMax: real
    var resBMax: real
    var resDMax: real
    var resMMax: real
    var iterMax: int
    var statMax: int
    var alphaMin: real
    var mu0: real
    var rest: KernelFields

    function Value(): IpmArg
      reads this
    {
      IpmArg(resGMax, resBMax, resDMax, resMMax, iterMax, statMax, alphaMin, mu0, rest)
    }

    /** The kernel's set-default call, modelled as writing the whole default
        record `k.defaults` into the struct. */
    method SetDefault(k: Kernel)
      modifies this
      ensures Value() == k.defaults
    {
      resGMax, resBMax, resDMax, resMMax := k.defaults.resGMax, k.defaults.resBMax, k.defaults.resDMax, k.defaults.resMMax;
      iterMax, statMax := k.defaults.iterMax, k.defaults.statMax;
      alphaMin, mu0 := k.defaults.alphaMin, k.defaults.mu0;
      rest := k.defaults.rest;
    }
  }

  /** Loads the kernel defaults into the argument struct, then overrides the
      tolerances, the iteration and statistics limits, the step floor and the
      initial barrier parameter. Nothing but that struct changes. */
  method OptsInitializeDefault(k: Kernel, arg: IpmArgStruct)
    modifies arg
    ensures arg.Value() == AdapterDefaults(k.defaults)
  {
    arg.SetDefault(k);
    arg.resGMax := ResGMaxDefault;
    arg.resBMax := ResBMaxDefault;
    arg.resDMax := ResDMaxDefault;
    arg.resMMax := ResMMaxDefault;
    arg.iterMax := IterMaxDefault;
    arg.statMax := StatMaxDefault;
    arg.alphaMin := AlphaMinDefault;
    arg.mu0 := Mu0Default;
  }

  // ---------------------------------------------------------------------------
  // Memory and workspace

  /** The memory regions in placement order; the kernel part depends on the options. */
  function MemoryRegions(sz: StructSizes, k: Kernel, dims: QpDims, opts: IpmArg): seq<nat>
  {
    [sz.hpipmMemory, sz.ipmWorkspace, k.ipmMemsize(dims, opts)]
  }

  /** The memory footprint is exactly the sum of its three regions, without padding. */
  function MemoryCalculateSize(sz: StructSizes, k: Kernel, dims: QpDims, opts: IpmArg): (size: nat)
    ensures size == Arena.Sum(MemoryRegions(sz, k, dims, opts))
    ensures size >= sz.hpipmMemory + sz.ipmWorkspace
  {
    Arena.SumOfThree(sz.hpipmMemory, sz.ipmWorkspace, k.ipmMemsize(dims, opts));
    sz.hpipmMemory + sz.ipmWorkspace + k.ipmMemsize(dims, opts)
  }

  /** Carves the memory out of the buffer at `rawMemory`: the adapter struct,
      the kernel workspace struct it points to, then the kernel's block. The
      cursor advances over that block by the memsize the kernel recorded when
      it created the workspace, so the closing assertion holds exactly when the
      kernel's recorded memsize agrees with its memory query. */
  method MemoryAssign(sz: StructSizes, k: Kernel, dims: QpDims, opts: IpmArg, rawMemory: nat)
    returns (r: Placement<MemoryHandle>)
    ensures r == Aborted(NotAligned) <==> !Arena.Aligned(rawMemory + sz.hpipmMemory + sz.ipmWorkspace)
    ensures r == Aborted(SizeMismatch) <==>
      Arena.Aligned(rawMemory + sz.hpipmMemory + sz.ipmWorkspace) && k.createdMemsize(dims, opts) != k.ipmMemsize(dims, opts)
    ensures (&& Arena.Aligned(rawMemory) && Arena.Aligned(sz.hpipmMemory) && Arena.Aligned(sz.ipmWorkspace)
             && k.createdMemsize(dims, opts) == k.ipmMemsize(dims, opts)) ==> r.Placed?
    ensures r.Placed? ==>
      [r.handle.mem, r.handle.hpipmWorkspace, r.handle.kernelBlock] == Arena.Offsets(rawMemory, MemoryRegions(sz, k, dims, opts))
    ensures r.Placed? ==> r.handle.workspaceMemsize == k.createdMemsize(dims, opts)
    ensures r.Placed? ==> r.end == rawMemory + MemoryCalculateSize(sz, k, dims, opts)
  {
    if Arena.Aligned(rawMemory) && Arena.Aligned(sz.hpipmMemory) && Arena.Aligned(sz.ipmWorkspace) {
      Arena.AlignedAdd(rawMemory, sz.hpipmMemory);
      Arena.AlignedAdd(rawMemory + sz.hpipmMemory, sz.ipmWorkspace);
    }
    var cPtr := rawMemory;
    var mem := cPtr;
    cPtr := cPtr + sz.hpipmMemory;
    var hpipmWorkspace := cPtr;
    cPtr := cPtr + sz.ipmWorkspace;
    if !Arena.Aligned(cPtr) {
      return Aborted(NotAligned);
    }
    var kernelBlock := cPtr;
    var memsize := k.createdMemsize(dims, opts);
    cPtr := cPtr + memsize;
    if cPtr != rawMemory + MemoryCalculateSize(sz, k, dims, opts) {
      return Aborted(SizeMismatch);
    }
    OffsetsOfThree(rawMemory, MemoryRegions(sz, k, dims, opts));
    r := Placed(MemoryHandle(mem, hpipmWorkspace, kernelBlock, memsize), cPtr);
  }

  /** The adapter needs no scratch space for any dimensions or options. */
  function WorkspaceCalculateSize(sz: StructSizes, k: Kernel, dims: QpDims, opts: IpmArg): (size: nat)
    ensures size == 0
  {
    0
  }

  /** Start addresses of a three-region placement. */
  lemma OffsetsOfThree(start: nat, regions: seq<nat>)
    requires |regions| == 3
    ensures Arena.Offsets(start, regions)
            == [start, start + regions[0], start + regions[0] + regions[1]]
  {
    var offsets := Arena.Offsets(start, regions);
    assert regions[..0] == [];
    assert regions[..1] == [regions[0]];
    assert regions[..2] == [regions[0], regions[1]];
    assert [regions[0]][..0] == [];
    assert [regions[0], regions[1]][..1] == [regions[0]];
    assert offsets[0] == start;
    assert offsets[1] == start + regions[0];
    assert offsets[2] == start + regions[0] + regions[1];
  }

  // ---------------------------------------------------------------------------
  // Solve and status mapping

  /** The acados return codes for success, iteration limit and minimum step. */
  datatype AcadosCodes = AcadosCodes(success: int, maxIter: int, minStep: int)

  /** The acados codes are the first three values of their enumeration, in some order. */
  predicate Enumerated(codes: AcadosCodes)
  {
    && 0 <= codes.success <= 2 && 0 <= codes.maxIter <= 2 && 0 <= codes.minStep <= 2
    && codes.success != codes.maxIter && codes.success != codes.minStep && codes.maxIter != codes.minStep
  }

  /** The adapter's status: native 0, 1 and 2 become the acados success,
      iteration-limit and minimum-step codes; any other native code passes
      through unchanged. */
  function MapStatus(codes: AcadosCodes, hpipmStatus: int): (r: int)
    ensures hpipmStatus == 0 ==> r == codes.success
    ensures hpipmStatus == 1 ==> r == codes.maxIter
    ensures hpipmStatus == 2 ==> r == codes.minStep
    ensures !(0 <= hpipmStatus <= 2) ==> r == hpipmStatus
  {
    if hpipmStatus == 0 then codes.success
    else if hpipmStatus == 1 then codes.maxIter
    else if hpipmStatus == 2 then codes.minStep
    else hpipmStatus
  }

  /** How a solve ended, as a closed set of outcomes. */
  datatype QpOutcome = Success | MaxIterationsReached | MinimumStepReached | BackendFailure(code: int)

  /** The meaning of the kernel's native status codes. */
  function NativeOutcome(hpipmStatus: int): QpOutcome
  {
    if hpipmStatus == 0 then Success
    else if hpipmStatus == 1 then MaxIterationsReached
    else if hpipmStatus == 2 then MinimumStepReached
    else BackendFailure(hpipmStatus)
  }

  /** How a caller reads the adapter's returned status. */
  function ReadStatus(codes: AcadosCodes, status: int): QpOutcome
  {
    if status == codes.success then Success
    else if status == codes.maxIter then MaxIterationsReached
    else if status == codes.minStep then MinimumStepReached
    else BackendFailure(status)
  }

  /** If the acados codes are 0, 1 and 2 in some order, reading the adapter's
      status back gives the kernel's own outcome for every native code. */
  lemma StatusRoundTrip(codes: AcadosCodes, hpipmStatus: int)
    requires Enumerated(codes)
    ensures ReadStatus(codes, MapStatus(codes, hpipmStatus)) == NativeOutcome(hpipmStatus)
  {
  }

  /** The round trip holds for every native code only if the acados codes are
      0, 1 and 2 in some order: a code outside that range, or two equal codes,
      makes some native code read back wrongly. */
  lemma {:induction false} RoundTripOnlyIfEnumerated(codes: AcadosCodes)
    requires forall s :: ReadStatus(codes, MapStatus(codes, s)) == NativeOutcome(s)
    ensures Enumerated(codes)
  {
    // Native 1 and 2 must not read back as success or as each other.
    assert ReadStatus(codes, MapStatus(codes, 1)) == MaxIterationsReached;
    assert ReadStatus(codes, MapStatus(codes, 2)) == MinimumStepReached;
    // A code outside 0..2 would be passed through and read back as itself.
    assert ReadStatus(codes, MapStatus(codes, codes.success)) == NativeOutcome(codes.success);
    assert ReadStatus(codes, MapStatus(codes, codes.maxIter)) == NativeOutcome(codes.maxIter);
    assert ReadStatus(codes, MapStatus(codes, codes.minStep)) == NativeOutcome(codes.minStep);
  }

  /** With success 0, iteration limit 2 and minimum step 3, native code 3 is
      passed through unchanged and reads back as the minimum-step outcome. */
  lemma PassThroughCollision()
    ensures MapStatus(AcadosCodes(0, 2, 3), 3) == 3
    ensures ReadStatus(AcadosCodes(0, 2, 3), MapStatus(AcadosCodes(0, 2, 3), 3)) == MinimumStepReached
    ensures NativeOutcome(3) == BackendFailure(3)
  {
  }

  /** No nonzero native code is returned as the success code, provided only
      that success is one of 0..2 and differs from the other two codes. */
  lemma NeverCoercedToSuccess(codes: AcadosCodes, hpipmStatus: int)
    requires 0 <= codes.success <= 2
    requires codes.success != codes.maxIter && codes.success != codes.minStep
    requires hpipmStatus != 0
    ensures MapStatus(codes, hpipmStatus) != codes.success
    ensures ReadStatus(codes, MapStatus(codes, hpipmStatus)) != Success
  {
  }

  /** The solve metadata the adapter writes. */
  class QpInfo {
    var solveQpTime: real
    var interfaceTime: real
    var totalTime: real
    var numIter: int
  }

  /** The solve call. The kernel's status, its workspace iteration count and
      the two timer readings are inputs; the adapter records them, sets the
      interface time to zero and maps the status by successive reassignment. */
  method Evaluate(codes: AcadosCodes, hpipmStatus: int, workspaceIter: int,
                  qpElapsed: real, totalElapsed: real, info: QpInfo) returns (acadosStatus: int)
    modifies info
    ensures info.solveQpTime == qpElapsed && info.totalTime == totalElapsed
    ensures info.interfaceTime == 0.0
    ensures info.numIter == workspaceIter
    ensures acadosStatus == MapStatus(codes, hpipmStatus)
  {
    info.solveQpTime := qpElapsed;
    info.interfaceTime := 0.0;
    info.totalTime := totalElapsed;
    info.numIter := workspaceIter;
    acadosStatus := hpipmStatus;
    if hpipmStatus == 0 { acadosStatus := codes.success; }
    if hpipmStatus == 1 { acadosStatus := codes.maxIter; }
    if hpipmStatus == 2 { acadosStatus := codes.minStep; }
  }

  // ---------------------------------------------------------------------------
  // Function table

  /** The routines a QP-solver function table can point at. */
  datatype Routine =
    | Unbound
    | HpipmOptsCalculateSize
    | HpipmOptsAssign
    | HpipmOptsInitializeDefault
    | HpipmMemoryCalculateSize
    | HpipmMemoryAssign
    | HpipmWorkspaceCalculateSize
    | HpipmEvaluate
    | OtherBackend(id: nat)

  /** The seven slots of the QP-solver component contract. */
  class QpSolverConfig {
    var optsCalculateSize: Routine
    var optsAssign: Routine
    var optsInitializeDefault: Routine
    var memoryCalculateSize: Routine
    var memoryAssign: Routine
    var workspaceCalculateSize: Routine
    var evaluate: Routine

    predicate BoundToHpipm()
      reads this
    {
      && optsCalculateSize == HpipmOptsCalculateSize
      && optsAssign == HpipmOptsAssign
      && optsInitializeDefault == HpipmOptsInitializeDefault
      && memoryCalculateSize == HpipmMemoryCalculateSize
      && memoryAssign == HpipmMemoryAssign
      && workspaceCalculateSize == HpipmWorkspaceCalculateSize
      && evaluate == HpipmEvaluate
    }
  }

  /** Binds all seven slots to the HPIPM routines; no other object changes. */
  method ConfigInitializeDefault(config: QpSolverConfig)
    modifies config
    ensures config.BoundToHpipm()
  {
    config.optsCalculateSize := HpipmOptsCalculateSize;
    config.optsAssign := HpipmOptsAssign;
    config.optsInitializeDefault := HpipmOptsInitializeDefault;
    config.memoryCalculateSize := HpipmMemoryCalculateSize;
    config.memoryAssign := HpipmMemoryAssign;
    config.workspaceCalculateSize := HpipmWorkspaceCalculateSize;
    config.evaluate := HpipmEvaluate;
  }
}
