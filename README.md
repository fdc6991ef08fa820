# acados: HPIPM QP backend adapter and the chain example's problem setup

This project models two parts of the acados solver framework, for nonlinear model-predictive control, and proves properties of them in Dafny.

The first part is the HPIPM backend of the QP-solver component contract. Every pluggable subsystem of acados has the same two-phase memory protocol: a size function plans an exact byte count, and an assign function carves a caller-supplied buffer with an advancing cursor. The adapter does this for its options and its memory. It also loads and overrides default options, calls the interior-point kernel and maps the kernel's status, and fills the seven-slot function table that binds the backend.

The second part is the setup in the hanging-chain example program:

- the per-stage dimension table for stages 0..N;
- the simple-bound index maps;
- the switch from sensitivity scheme to "frozen sensitivities";
- the blocks that sum the memory sizes of the external functions, allocate once, and then place each function at an advancing cursor.

Files:

- `arena.dfy` (module `Arena`): placement arithmetic. It defines the prefix sum `Sum` and the start addresses `Offsets` of regions placed back to back, and proves that those regions do not overlap and stay inside the planned buffer.
- `ocp_qp_hpipm.dfy` (module `OcpQpHpipm`): the adapter.
- `nonlinear_chain.dfy` (module `NonlinearChain`): the example's setup.

The kernel is foreign code, so it is modelled as a `Kernel` record. Its fields are its two memory queries, the memsize it records when it creates its workspace, and the defaults its set-default routine writes. What `sizeof` yields for the four placed structs is a `StructSizes` record. Dimensions, addresses and sizes are unbounded naturals. The adapter's two `assert` lines about alignment and size are modelled as enabled: a failing assertion is the result `Aborted(...)`.

The adapter maps native codes 0, 1 and 2 to `ACADOS_SUCCESS`, `ACADOS_MAXITER` and `ACADOS_MINSTEP`, and returns any other native code unchanged as an integer (`MapStatus`). `ReadStatus` gives the closed outcome set a caller reads from the returned integer. acados/utils/types.h, which defines the three acados codes, is not part of this model, so their values are the parameter `AcadosCodes`.

Whether the returned status can be read back faithfully depends on those values:

- `NeverCoercedToSuccess` holds whenever the success code is one of 0..2 and differs from the other two codes: no nonzero native code is returned as success.
- `StatusRoundTrip` assumes that the three codes are 0, 1 and 2 in some order. Under that assumption every native code reads back as the kernel's own outcome.
- `RoundTripOnlyIfEnumerated` shows that the assumption is also necessary.
- `PassThroughCollision` gives the numbering success 0, iteration limit 2, minimum step 3. Under it, native code 3 is passed through and reads back as the minimum-step outcome.

## Model

| member | source | states |
|---|---|---|
| `OcpQpHpipm.OptsCalculateSize` | acados/ocp_qp/ocp_qp_hpipm.c:35-43 | the options size is exactly the sum of the adapter struct, the kernel argument struct and the kernel's argument memory, in placement order, with no padding |
| `OcpQpHpipm.OptsAssign` | acados/ocp_qp/ocp_qp_hpipm.c:47-67 | placement succeeds exactly when the cursor before the kernel block is 8-aligned; it always succeeds when the buffer and both struct sizes are multiples of 8; the three regions start back to back at the buffer start (the kernel argument struct right after the adapter struct); the cursor ends exactly at buffer + planned options size |
| `OcpQpHpipm.AdapterDefaults` | acados/ocp_qp/ocp_qp_hpipm.c:75-84 | after default initialisation res_g_max is 1e-6, res_b/d/m_max are 1e-8, iter_max and stat_max are 50, alpha_min is 1e-8 and mu0 is 1, and every other kernel field keeps the kernel's default |
| `OcpQpHpipm.IpmArgStruct.SetDefault` | acados/ocp_qp/ocp_qp_hpipm.c:75 | the kernel's set-default call leaves the argument struct equal to the kernel defaults |
| `OcpQpHpipm.OptsInitializeDefault` | acados/ocp_qp/ocp_qp_hpipm.c:71-85 | the argument struct, changed in place and alone, ends equal to `AdapterDefaults` of the kernel defaults |
| `OcpQpHpipm.MemoryCalculateSize` | acados/ocp_qp/ocp_qp_hpipm.c:89-101 | the memory size is exactly the sum of the adapter memory struct, the kernel workspace struct and the kernel's workspace memory for the given options |
| `OcpQpHpipm.MemoryAssign` | acados/ocp_qp/ocp_qp_hpipm.c:105-130 | it aborts on alignment exactly when the cursor before the kernel block is not 8-aligned; it aborts on size exactly when it is aligned but the memsize the kernel recorded differs from its memory query; it succeeds for an aligned buffer and aligned struct sizes with a consistent kernel; on success the regions are back to back, the workspace records the kernel's memsize, and the cursor ends exactly at buffer + planned memory size |
| `OcpQpHpipm.WorkspaceCalculateSize` | acados/ocp_qp/ocp_qp_hpipm.c:134-137 | the workspace size is 0 for all dimensions and options |
| `OcpQpHpipm.MapStatus` | acados/ocp_qp/ocp_qp_hpipm.c:160-165 | native 0 gives the success code, 1 the iteration-limit code, 2 the minimum-step code, and any other native code is returned unchanged |
| `OcpQpHpipm.StatusRoundTrip` | acados/ocp_qp/ocp_qp_hpipm.c:160-165 | assuming the acados codes are 0..2 in some order, reading the returned status gives the kernel's own outcome for every native code |
| `OcpQpHpipm.RoundTripOnlyIfEnumerated` | acados/ocp_qp/ocp_qp_hpipm.c:160-165 | if the returned status reads back faithfully for every native code, then the acados codes are 0..2 in some order |
| `OcpQpHpipm.PassThroughCollision` | acados/ocp_qp/ocp_qp_hpipm.c:161-165 | with codes success 0, iteration limit 2 and minimum step 3, native code 3 is returned unchanged and reads back as the minimum-step outcome, not as a failure |
| `OcpQpHpipm.NeverCoercedToSuccess` | acados/ocp_qp/ocp_qp_hpipm.c:160-165 | when the success code is in 0..2 and distinct from the other two codes, no nonzero native code is returned as the success code or read as success |
| `OcpQpHpipm.Evaluate` | acados/ocp_qp/ocp_qp_hpipm.c:141-166 | the info record gets the kernel's iteration count, zero interface time and the two timer readings; the returned status is `MapStatus` of the kernel status |
| `OcpQpHpipm.ConfigInitializeDefault` | acados/ocp_qp/ocp_qp_hpipm.c:170-185 | all seven slots of the function table are bound to the HPIPM routines, and only the config object changes |
| `Arena.SumPrefixGrows` | examples/c/nonlinear_chain_ocp_nlp.c:643-647 | after object j is placed, the cursor has advanced past j's whole region and it never moves backwards |
| `Arena.RegionsDisjoint` | examples/c/nonlinear_chain_ocp_nlp.c:643-647 | objects placed by the advancing cursor never overlap |
| `Arena.RegionWithinBuffer` | examples/c/nonlinear_chain_ocp_nlp.c:642-647 | every placed object lies inside the buffer of the summed size |
| `NonlinearChain.ChainStage` | examples/c/nonlinear_chain_ocp_nlp.c:400-449 | every stage has 6*NMF states, nb = nbx + nbu, nv = ny = nx + nu, no soft or nonlinear constraints, and no more state or control bounds than variables |
| `NonlinearChain.StageDimensions` | examples/c/nonlinear_chain_ocp_nlp.c:403-449 | filling stage 0, the middle stages in a loop, then stage N leaves each table entry equal to `ChainStage` of its stage |
| `NonlinearChain.InitialStageConstrainsAll` | examples/c/nonlinear_chain_ocp_nlp.c:414-428 | stage 0 constrains all nx + nu variables, and with bounds posed as general constraints it has no simple bounds and ng = nu + nx |
| `NonlinearChain.MiddleStageBounds` | examples/c/nonlinear_chain_ocp_nlp.c:430-440 | stages 1..N-1 have nu = 3, nbu = NU, nbx = NMF and ng = 0 |
| `NonlinearChain.TerminalStageBounds` | examples/c/nonlinear_chain_ocp_nlp.c:442-449 | stage N has no controls, bounds every state and has ng = 0 |
| `NonlinearChain.ExampleDimensions` | examples/c/nonlinear_chain_ocp_nlp.c:394-449 | with 15 intervals and 3 free masses: 18 states everywhere, 21 general constraints on stage 0, 6 simple bounds on each middle stage and 18 on stage N |
| `NonlinearChain.Idxb1Increasing` | examples/c/nonlinear_chain_ocp_nlp.c:850-853 | the middle-stage bound map is strictly increasing and below nu + 6*NMF |
| `NonlinearChain.Idxb1InRange` | examples/c/nonlinear_chain_ocp_nlp.c:850-853 | every entry of the middle-stage bound map, the first included, is below nu + 6*NMF |
| `NonlinearChain.Idxb1FitsMiddleStages` | examples/c/nonlinear_chain_ocp_nlp.c:849-853 | the middle-stage bound map has one entry per simple bound of each middle stage, and every entry is a variable of that stage |
| `NonlinearChain.BuildIdxb1` | examples/c/nonlinear_chain_ocp_nlp.c:849-853 | the array filled in place is the identity on the NU controls followed by NU + 6*i + 1 for each free mass i |
| `NonlinearChain.BuildIdentity` | examples/c/nonlinear_chain_ocp_nlp.c:855-858 | the array filled in place is the identity (idxb0 and idxbN) |
| `NonlinearChain.TerminalMapFits` | examples/c/nonlinear_chain_ocp_nlp.c:856-858 | the identity map over nb of stage N selects each terminal state once, in increasing order |
| `NonlinearChain.FreezeSens` | examples/c/nonlinear_chain_ocp_nlp.c:835-837 | sensitivities are frozen exactly when the scheme is FROZEN_INEXACT_NEWTON or FROZEN_INIS |
| `NonlinearChain.SumSizes` | examples/c/nonlinear_chain_ocp_nlp.c:704-708 | the size loop's total is the sum of all object sizes |
| `NonlinearChain.AssignBackToBack` | examples/c/nonlinear_chain_ocp_nlp.c:710-715 | object k is placed at start + the sizes of objects 0..k-1, and the cursor ends at start + the total size |
| `NonlinearChain.PlaceExternalFunctions` | examples/c/nonlinear_chain_ocp_nlp.c:637-648 | a whole block allocates exactly the summed size, ends its cursor at the buffer end, and places every object inside the buffer |

## Left out

- The HPIPM kernel (`d_solve_ocp_qp_ipm`, `d_memsize_*`, `d_create_*`, `d_set_default_ocp_qp_ipm_arg`) is foreign code. Its results are fields of `Kernel` or inputs of `Evaluate`. The QP data it reads and the solution it writes are not modelled.
- Timing: `acados_tic`/`acados_toc` read a wall clock, so the two elapsed times are inputs of `Evaluate`.
- The adapter structs are not objects inside a byte buffer. The assign functions return their addresses as handles, and the pointer fields they write (`args->hpipm_opts`, `mem->hpipm_workspace`) are fields of those handles.
- C `int` and `size_t` widths: sizes and addresses are unbounded naturals, so overflow of the size sums is not modelled.
- The two `assert` lines are modelled as enabled. A build with assertions switched off would continue with a wrong cursor, and that is not modelled.
- acados/utils/types.h, acados/ocp_qp/ocp_qp_common.h and the HPIPM headers are not part of this model. The return codes are a parameter, `QpDims` keeps only the usual QP dimension fields, and the kernel argument fields the adapter never touches are an opaque `KernelFields` value.
- The chain example keeps its ten stage-size arrays in parallel. The model keeps one array of per-stage `StageDims` records instead.
- The SQP driver `ocp_nlp_gn_sqp`, and every `ocp_nlp_*` size/assign/init call of the example, are not part of this model.
- File input (`read_initial_state`, `read_final_state`) and all printing, including `print_problem_info`, are left out.
- CasADi symbol binding (`select_dynamics_casadi`, `select_ls_cost_jac_casadi`) only binds foreign symbols. Its `DYNAMICS==2` branches for one and two free masses assign `impl_jac_x` three times where `impl_jac_xdot` and `impl_jac_u` look intended. That behaviour is not modelled.
- The numeric problem data (weights, bounds, references, the stage-0 constraint matrices, the integrator stage counts and intervals, the SQP tolerances) is floating-point data set by BLASFEO calls or plain assignments, so it is left out.
- The `ACADOS_WITH_C_INTERFACE` and `#if 0` variants, and the `DYNAMICS` 0/1 blocks for `forw_vde` and `jac_ode`, are left out. The 0/1 blocks have the same shape as the modelled `PlaceExternalFunctions`. `malloc` is the `alloc` parameter of `PlaceExternalFunctions`, and `free` is not modelled.
- `PlaceExternalFunctions` takes each object's size once, as a sequence. The C code calls `external_function_casadi_calculate_size` again in the assign loop, so the model assumes that call is deterministic.
- OcpQpHpipm.StatusRoundTrip: the faithful read-back of every status is proved only under the assumption that the acados codes are 0, 1 and 2 in some order. acados/utils/types.h, which fixes them, is not part of this model. Under another numbering, such as the one in `PassThroughCollision`, a passed-through native code can read back as a different outcome.
