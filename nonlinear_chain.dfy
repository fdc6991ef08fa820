/** Problem setup of the hanging-chain example: the per-stage dimension table,
    the simple-bound index maps, the sensitivity-scheme switch, and the
    "sum the sizes, then place each object at an advancing cursor" blocks that
    give every external function its memory. */
module NonlinearChain {
  import Arena

  /** Number of shooting intervals; stages run 0..NN. */
  const NN: nat := 15
  /** Number of free masses. */
  const NMF: nat := 3
  /** Controls per stage (the velocity of the last mass). */
  const NU: nat := 3
  /** The example poses the bounds of stage 0 as general constraints. */
  const BoxAsGeneral: bool := true

  /** States: position and velocity of each free mass. */
  function StateCount(nmf: nat): nat
  {
    6 * nmf
  }

  /** One stage's sizes: states, controls, state/control/all simple bounds,
      general constraints, soft constraints, nonlinear constraints, cost
      inputs and least-squares outputs. */
  datatype StageDims = StageDims(nx: nat, nu: nat, nbx: nat, nbu: nat, nb: nat, ng: nat,
                                 ns: nat, nh: nat, nv: nat, ny: nat)

  /** The dimensions of stage i of an n-interval chain with nmf free masses.
      With `boxAsGeneral` the bounds of stage 0 are posed as general
      constraints instead of simple bounds. Stage n is written last, so it
      wins when n is 0. */
  function ChainStage(nmf: nat, n: nat, boxAsGeneral: bool, i: nat): (d: StageDims)
    requires i <= n
    ensures d.nx == StateCount(nmf)
    ensures d.nb == d.nbx + d.nbu
    ensures d.nv == d.nx + d.nu && d.ny == d.nx + d.nu
    ensures d.ns == 0 && d.nh == 0
    ensures d.nbx <= d.nx && d.nbu <= d.nu
  {
    var nx := StateCount(nmf);
    if i == n then
      StageDims(nx, 0, nx, 0, nx, 0, 0, 0, nx, nx)
    else if i == 0 then
      if boxAsGeneral then StageDims(nx, NU, 0, 0, 0, NU + nx, 0, 0, nx + NU, nx + NU)
      else StageDims(nx, NU, nx, NU, NU + nx, 0, 0, 0, nx + NU, nx + NU)
    else
      StageDims(nx, NU, nmf, NU, NU + nmf, 0, 0, 0, nx + NU, nx + NU)
  }

  /** Fills the dimension table in the order of the example's `main`: stage 0,
      the middle stages in a loop, then the terminal stage. */
  method StageDimensions(nmf: nat, n: nat, boxAsGeneral: bool, dims: array<StageDims>)
    requires dims.Length == n + 1
    modifies dims
    ensures forall i :: 0 <= i <= n ==> dims[i] == ChainStage(nmf, n, boxAsGeneral, i)
  {
    var nx := StateCount(nmf);
    if boxAsGeneral {
      dims[0] := StageDims(nx, NU, 0, 0, 0, NU + nx, 0, 0, nx + NU, nx + NU);
    } else {
      dims[0] := StageDims(nx, NU, nx, NU, NU + nx, 0, 0, 0, nx + NU, nx + NU);
    }
    var i := 1;
    while i < n
      invariant 1 <= i <= n || (n == 0 && i == 1)
      invariant forall j :: 0 <= j < i && j < n ==> dims[j] == ChainStage(nmf, n, boxAsGeneral, j)
    {
      dims[i] := StageDims(nx, NU, nmf, NU, NU + nmf, 0, 0, 0, nx + NU, nx + NU);
      i := i + 1;
    }
    dims[n] := StageDims(nx, 0, nx, 0, nx, 0, 0, 0, nx, nx);
  }

  /** Stage 0 constrains every one of its variables, either as simple bounds
      or, with `boxAsGeneral`, entirely as general constraints. */
  lemma InitialStageConstrainsAll(nmf: nat, n: nat, boxAsGeneral: bool)
    requires n >= 1
    ensures ChainStage(nmf, n, boxAsGeneral, 0).nb + ChainStage(nmf, n, boxAsGeneral, 0).ng
            == ChainStage(nmf, n, boxAsGeneral, 0).nx + ChainStage(nmf, n, boxAsGeneral, 0).nu
    ensures boxAsGeneral ==> ChainStage(nmf, n, boxAsGeneral, 0).nb == 0
  {
  }

  /** The middle stages bound every control and one coordinate of each free
      mass, and have no general constraints. */
  lemma MiddleStageBounds(nmf: nat, n: nat, boxAsGeneral: bool, i: nat)
    requires 0 < i < n
    ensures ChainStage(nmf, n, boxAsGeneral, i).nu == NU
    ensures ChainStage(nmf, n, boxAsGeneral, i).nbu == NU && ChainStage(nmf, n, boxAsGeneral, i).nbx == nmf
    ensures ChainStage(nmf, n, boxAsGeneral, i).ng == 0
  {
  }

  /** The terminal stage has no controls and bounds every state. */
  lemma TerminalStageBounds(nmf: nat, n: nat, boxAsGeneral: bool)
    ensures ChainStage(nmf, n, boxAsGeneral, n).nu == 0
    ensures ChainStage(nmf, n, boxAsGeneral, n).nb == ChainStage(nmf, n, boxAsGeneral, n).nx
    ensures ChainStage(nmf, n, boxAsGeneral, n).ng == 0
  {
  }

  /** The table the example builds: 18 states per stage, 21 general
      constraints on stage 0, 6 simple bounds on each middle stage and 18 on
      the terminal stage. */
  lemma ExampleDimensions(i: nat)
    requires 0 < i < NN
    ensures ChainStage(NMF, NN, BoxAsGeneral, 0) == StageDims(18, 3, 0, 0, 0, 21, 0, 0, 21, 21)
    ensures ChainStage(NMF, NN, BoxAsGeneral, i) == StageDims(18, 3, 3, 3, 6, 0, 0, 0, 21, 21)
    ensures ChainStage(NMF, NN, BoxAsGeneral, NN) == StageDims(18, 0, 18, 0, 18, 0, 0, 0, 18, 18)
  {
  }

  // ---------------------------------------------------------------------------
  // Bound index maps

  /** The index map of the middle stages over the stage vector [u; x]: every
      control, then coordinate 1 of each free mass's six states. */
  function Idxb1(nu: nat, nmf: nat): (r: seq<nat>)
    ensures |r| == nu + nmf
  {
    seq(nu + nmf, k requires 0 <= k < nu + nmf => if k < nu then k else nu + 6 * (k - nu) + 1)
  }

  /** The middle-stage index map is strictly increasing and stays inside the
      stage vector of nu controls and 6*nmf states. */
  lemma Idxb1Increasing(nu: nat, nmf: nat, j: nat, k: nat)
    requires j < k < nu + nmf
    ensures Idxb1(nu, nmf)[j] < Idxb1(nu, nmf)[k]
    ensures Idxb1(nu, nmf)[k] < nu + StateCount(nmf)
  {
  }

  /** Every entry of the middle-stage map, the first included, is a variable
      of the stage vector of nu controls and 6*nmf states. */
  lemma Idxb1InRange(nu: nat, nmf: nat)
    ensures forall k :: 0 <= k < nu + nmf ==> Idxb1(nu, nmf)[k] < nu + StateCount(nmf)
  {
  }

  /** The middle-stage map has one entry per simple bound of every middle
      stage, and each entry is a variable of that stage. */
  lemma Idxb1FitsMiddleStages(nmf: nat, n: nat, boxAsGeneral: bool, i: nat)
    requires 0 < i < n
    ensures |Idxb1(NU, nmf)| == ChainStage(nmf, n, boxAsGeneral, i).nb
    ensures forall k :: 0 <= k < |Idxb1(NU, nmf)| ==>
      Idxb1(NU, nmf)[k] < ChainStage(nmf, n, boxAsGeneral, i).nu + ChainStage(nmf, n, boxAsGeneral, i).nx
  {
  }

  /** Writes the middle-stage map in place: the controls, then one
      position coordinate per free mass. */
  method BuildIdxb1(nmf: nat, idxb: array<nat>)
    requires idxb.Length == NU + nmf
    modifies idxb
    ensures idxb[..] == Idxb1(NU, nmf)
  {
    for i := 0 to NU
      invariant forall j :: 0 <= j < i ==> idxb[j] == j
    {
      idxb[i] := i;
    }
    for i := 0 to nmf
      invariant forall j :: 0 <= j < NU ==> idxb[j] == j
      invariant forall j :: 0 <= j < i ==> idxb[NU + j] == NU + 6 * j + 1
    {
      idxb[NU + i] := NU + 6 * i + 1;
    }
    assert forall j :: NU <= j < NU + nmf ==> idxb[j] == NU + 6 * (j - NU) + 1 by {
      forall j | NU <= j < NU + nmf ensures idxb[j] == NU + 6 * (j - NU) + 1 {
        assert idxb[NU + (j - NU)] == NU + 6 * (j - NU) + 1;
      }
    }
  }

  /** Writes the identity map used for stage 0 and the terminal stage. */
  method BuildIdentity(idxb: array<nat>)
    modifies idxb
    ensures forall k :: 0 <= k < idxb.Length ==> idxb[k] == k
  {
    for i := 0 to idxb.Length
      invariant forall j :: 0 <= j < i ==> idxb[j] == j
    {
      idxb[i] := i;
    }
  }

  /** The terminal map, the identity over nb of the last stage, picks each
      terminal state once. */
  lemma TerminalMapFits(nmf: nat, n: nat, boxAsGeneral: bool, idxbN: seq<nat>)
    requires |idxbN| == ChainStage(nmf, n, boxAsGeneral, n).nb
    requires forall k :: 0 <= k < |idxbN| ==> idxbN[k] == k
    ensures forall k :: 0 <= k < |idxbN| ==> idxbN[k] < ChainStage(nmf, n, boxAsGeneral, n).nx
    ensures forall j, k :: 0 <= j < k < |idxbN| ==> idxbN[j] < idxbN[k]
  {
  }

  // ---------------------------------------------------------------------------
  // Sensitivity scheme

  /** The SQP sensitivity variants, in their enumeration order. */
  datatype SensitivitiesScheme = ExactNewton | InexactNewton | Inis | FrozenInexactNewton | FrozenInis

  /** The scheme's value in the C enumeration. */
  function SchemeValue(s: SensitivitiesScheme): nat
  {
    match s
    case ExactNewton => 0
    case InexactNewton => 1
    case Inis => 2
    case FrozenInexactNewton => 3
    case FrozenInis => 4
  }

  /** Sensitivities are frozen exactly for the two frozen variants: the test
      on the enumeration value above 2 picks those and no other. */
  function FreezeSens(s: SensitivitiesScheme): (freeze: bool)
    ensures freeze <==> (s == FrozenInexactNewton || s == FrozenInis)
  {
    SchemeValue(s) > 2
  }

  // ---------------------------------------------------------------------------
  // Sum the sizes, then place each object

  /** The first loop of a block: the total the block allocates. */
  method SumSizes(sizes: seq<nat>) returns (tmpSize: nat)
    ensures tmpSize == Arena.Sum(sizes)
  {
    tmpSize := 0;
    var ii := 0;
    while ii < |sizes|
      invariant 0 <= ii <= |sizes|
      invariant tmpSize == Arena.Sum(sizes[..ii])
    {
      Arena.SumPrefixStep(sizes, ii);
      tmpSize := tmpSize + sizes[ii];
      ii := ii + 1;
    }
    assert sizes[..|sizes|] == sizes;
  }

  /** The second loop of a block: object ii gets the cursor, which then
      advances by that object's size. `placed[ii]` is the address object ii
      records. */
  method AssignBackToBack(sizes: seq<nat>, mem: nat, placed: array<nat>) returns (cPtr: nat)
    requires placed.Length == |sizes|
    modifies placed
    ensures placed[..] == Arena.Offsets(mem, sizes)
    ensures cPtr == mem + Arena.Sum(sizes)
  {
    cPtr := mem;
    var ii := 0;
    while ii < |sizes|
      invariant 0 <= ii <= |sizes|
      invariant cPtr == mem + Arena.Sum(sizes[..ii])
      invariant forall j :: 0 <= j < ii ==> placed[j] == mem + Arena.Sum(sizes[..j])
    {
      placed[ii] := cPtr;
      Arena.SumPrefixStep(sizes, ii);
      cPtr := cPtr + sizes[ii];
      ii := ii + 1;
    }
    assert sizes[..|sizes|] == sizes;
  }

  /** One whole block: sum the sizes, obtain a buffer of exactly that many
      bytes from `alloc`, and place the objects in it. The cursor ends at the
      end of the buffer, and every object lies inside it without overlap. */
  method PlaceExternalFunctions(sizes: seq<nat>, alloc: nat -> nat, placed: array<nat>)
    returns (tmpSize: nat, mem: nat, cPtr: nat)
    requires placed.Length == |sizes|
    modifies placed
    ensures tmpSize == Arena.Sum(sizes) && mem == alloc(tmpSize)
    ensures placed[..] == Arena.Offsets(mem, sizes)
    ensures cPtr == mem + tmpSize
    ensures forall k :: 0 <= k < |sizes| ==> mem <= placed[k] && placed[k] + sizes[k] <= mem + tmpSize
  {
    tmpSize := SumSizes(sizes);
    mem := alloc(tmpSize);
    cPtr := AssignBackToBack(sizes, mem, placed);
    forall k | 0 <= k < |sizes|
      ensures mem <= placed[k] && placed[k] + sizes[k] <= mem + tmpSize
    {
      Arena.RegionWithinBuffer(mem, sizes, k);
    }
  }
}
