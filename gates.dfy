/**
  The gate catalogue of pytorch_quantum/operators.py: the static, per-class facts of every
  concrete gate class (its name, its number of parameters, its wire arity, the class it
  derives from), the two name lists `fixed_ops` and `parameterized_ops`, where each class
  finds its matrix and eigenvalues, and the diagonalizing-gate sequences of the observables.
  The numeric content of matrices and eigenvalues is not modelled: a matrix is identified
  by the table entry or the formula that produces it.
*/
module Gates {
  import opened Outcomes

  /** One constructor per concrete gate class. */
  datatype GateKind =
    | Hadamard | PauliX | PauliY | PauliZ | S | T | SX
    | CNOT | CZ | CY | SWAP | CSWAP | Toffoli
    | RX | RY | RZ | PhaseShift | Rot | MultiRZ
    | CRX | CRY | CRZ | CRot | U1

  /** The abstract class a concrete gate class derives from. */
  datatype Family =
    | Observable            // Observable only: no parameter machinery at all
    | ObservableOperation   // Observable first, then Operation (Hadamard)
    | Operation
    | DiagonalOperation

  /** The `WiresEnum` sentinels. */
  const AnyWires: int := -1
  const AllWires: int := 0

  /** `np.pi`, and the upper bound `2 * np.pi` of the random initialisation; values are exact reals here. */
  const Pi: real := 3.141592653589793
  const TwoPi: real := 2.0 * Pi

  const FixedOps: seq<string> :=
    ["Hadamard", "PauliX", "PauliY", "PauliZ", "S", "T", "SX",
     "CNOT", "CZ", "CY", "SWAP", "CSWAP", "Toffoli"]

  const ParameterizedOps: seq<string> :=
    ["RX", "RY", "RZ", "PhaseShift", "Rot", "MultiRZ",
     "CRX", "CRY", "CRZ", "CRot", "U1"]

  /** `self.__class__.__name__`, the default `name` of an instance. */
  function ClassName(k: GateKind): string
  {
    match k
    case Hadamard => "Hadamard"
    case PauliX => "PauliX"
    case PauliY => "PauliY"
    case PauliZ => "PauliZ"
    case S => "S"
    case T => "T"
    case SX => "SX"
    case CNOT => "CNOT"
    case CZ => "CZ"
    case CY => "CY"
    case SWAP => "SWAP"
    case CSWAP => "CSWAP"
    case Toffoli => "Toffoli"
    case RX => "RX"
    case RY => "RY"
    case RZ => "RZ"
    case PhaseShift => "PhaseShift"
    case Rot => "Rot"
    case MultiRZ => "MultiRZ"
    case CRX => "CRX"
    case CRY => "CRY"
    case CRZ => "CRZ"
    case CRot => "CRot"
    case U1 => "U1"
  }

  /** The class attribute `num_params`: none, one angle, or three angles; the any-arity gate takes one. */
  function NumParams(k: GateKind): (n: nat)
    ensures n == 0 || n == 1 || n == 3
    ensures NumWires(k) == AnyWires ==> n == 1
  {
    match k
    case RX | RY | RZ | PhaseShift | MultiRZ | CRX | CRY | CRZ | U1 => 1
    case Rot | CRot => 3
    case _ => 0
  }

  /** The class attribute `num_wires`: one to three wires, or the `AnyWires` sentinel. */
  function NumWires(k: GateKind): (w: int)
    ensures w == AnyWires || 1 <= w <= 3
  {
    match k
    case CNOT | CZ | CY | SWAP | CRX | CRY | CRZ | CRot => 2
    case CSWAP | Toffoli => 3
    case MultiRZ => AnyWires
    case _ => 1
  }

  /** The base classes: observables are one-wire gates without parameters, and no diagonal gate acts on three wires. */
  function FamilyOf(k: GateKind): (f: Family)
    ensures f == Observable || f == ObservableOperation ==> NumParams(k) == 0 && NumWires(k) == 1
    ensures f == DiagonalOperation ==> NumWires(k) != 3
  {
    match k
    case Hadamard => ObservableOperation
    case PauliX | PauliY | PauliZ => Observable
    case S | T | CZ | RZ | PhaseShift | MultiRZ | U1 => DiagonalOperation
    case _ => Operation
  }

  /** Whether instances of the class are `Observable`s (they have `diagonalizing_gates`). */
  predicate IsObservable(k: GateKind)
  {
    FamilyOf(k) == Observable || FamilyOf(k) == ObservableOperation
  }

  /** Where a matrix comes from: an entry of `mat_dict`, or a `tqf` formula over the parameters. */
  datatype MatrixSource =
    | Table(key: string)
    | Formula(name: string)
    | WireCountFormula(name: string, nWires: Option<int>)

  /** The `mat_dict` key of a fixed gate's class attribute `matrix`. */
  function TableKey(k: GateKind): string
  {
    match k
    case Hadamard => "hadamard"
    case PauliX => "paulix"
    case PauliY => "pauliy"
    case PauliZ => "pauliz"
    case S => "s"
    case T => "t"
    case SX => "sx"
    case CNOT => "cnot"
    case CZ => "cz"
    case CY => "cy"
    case SWAP => "swap"
    case CSWAP => "cswap"
    case Toffoli => "toffoli"
    case _ => ""
  }

  /** The name of the `tqf` function a parameterized class's `_matrix` calls. */
  function FormulaName(k: GateKind): string
  {
    match k
    case RX => "rx_matrix"
    case RY => "ry_matrix"
    case RZ => "rz_matrix"
    case PhaseShift => "phaseshift_matrix"
    case Rot => "rot_matrix"
    case MultiRZ => "multirz_matrix"
    case CRX => "crx_matrix"
    case CRY => "cry_matrix"
    case CRZ => "crz_matrix"
    case CRot => "crot_matrix"
    case U1 => "u1_matrix"
    case _ => ""
  }

  /**
    The `matrix` of an instance, as written: fixed classes shadow the property with their
    `mat_dict` entry; the others evaluate `self._matrix(self.params)`, which for MultiRZ,
    whose `_matrix` also takes `n_wires`, is a call with a missing argument.
  */
  function MatrixOf(k: GateKind): (r: Result<MatrixSource>)
    ensures r.Err? ==> r.error == WrongArguments && NumWires(k) == AnyWires
    ensures r.Ok? ==> !r.value.WireCountFormula?
  {
    if NumParams(k) == 0 then Ok(Table(TableKey(k)))
    else if k == MultiRZ then Err(WrongArguments)
    else Ok(Formula(FormulaName(k)))
  }

  /** The `matrix` of an instance when the property also passes `self.n_wires` to a gate of any arity. */
  function MatrixOfCorrected(k: GateKind, nWires: Option<int>): (r: Result<MatrixSource>)
    ensures r.Ok?
    ensures r.value.WireCountFormula? <==> NumWires(k) == AnyWires
    ensures r.value.WireCountFormula? ==> r.value.nWires == nWires
  {
    if NumParams(k) == 0 then Ok(Table(TableKey(k)))
    else if NumWires(k) == AnyWires then Ok(WireCountFormula(FormulaName(k), nWires))
    else Ok(Formula(FormulaName(k)))
  }

  /**
    The `eigvals` of an instance: the classes with a constant `eigvals` attribute answer with it;
    every other class reaches an `_eigvals` hook that raises NotImplementedError.
  */
  function EigvalsOf(k: GateKind): (o: Outcome)
    ensures o.Pass? ==> NumParams(k) == 0
    ensures o.Fail? ==> o.error == NotImplemented
    ensures IsObservable(k) ==> o.Pass?
    ensures FamilyOf(k) == DiagonalOperation && NumParams(k) == 0 ==> o.Pass?
  {
    match k
    case Hadamard | PauliX | PauliY | PauliZ | S | T | SX | CZ => Pass
    case _ => Fail(NotImplemented)
  }

  /** What a caller passes when `init_params` is given: nothing, a scalar, or a list. */
  datatype InitParams = Absent | Scalar(value: real) | Values(values: seq<real>)

  /** The arguments of a constructor call: none at all, or the keywords of `Operation.__init__`. */
  datatype CtorArgs =
    | NoArgs
    | Args(hasParams: bool, trainable: bool, init: InitParams, nWires: Option<int>)

  /** A constructor call `tq.<Kind>(...)`. */
  datatype GateRequest = GateRequest(kind: GateKind, args: CtorArgs)

  /** `diagonalizing_gates()`: only observables have the method. */
  function DiagonalizingGates(k: GateKind): (r: Result<seq<GateRequest>>)
    ensures r.Ok? <==> IsObservable(k)
    ensures r.Err? ==> r.error == AttributeMissing
    ensures r.Ok? ==> forall g | g in r.value :: g.kind != k && NumParams(g.kind) <= 1
  {
    match k
    case Hadamard => Ok([GateRequest(RY, Args(true, false, Scalar(-Pi / 4.0), None))])
    case PauliX => Ok([GateRequest(Hadamard, NoArgs)])
    case PauliY => Ok([GateRequest(PauliZ, NoArgs), GateRequest(S, NoArgs), GateRequest(Hadamard, NoArgs)])
    case PauliZ => Ok([])
    case _ => Err(AttributeMissing)
  }

  // ---------------------------------------------------------------------------------------
  // Properties of the catalogue

  /** No name is in both `fixed_ops` and `parameterized_ops`. */
  lemma OpListsDisjoint()
    ensures forall s :: s in FixedOps ==> s !in ParameterizedOps
  {
  }

  /** Every gate class is named in exactly one list: `fixed_ops` iff it has no parameters. */
  lemma ClassListed(k: GateKind)
    ensures ClassName(k) in FixedOps <==> NumParams(k) == 0
    ensures ClassName(k) in ParameterizedOps <==> NumParams(k) >= 1
  {
    OpListsDisjoint();
    match k
    case Hadamard => assert FixedOps[0] == ClassName(k);
    case PauliX => assert FixedOps[1] == ClassName(k);
    case PauliY => assert FixedOps[2] == ClassName(k);
    case PauliZ => assert FixedOps[3] == ClassName(k);
    case S => assert FixedOps[4] == ClassName(k);
    case T => assert FixedOps[5] == ClassName(k);
    case SX => assert FixedOps[6] == ClassName(k);
    case CNOT => assert FixedOps[7] == ClassName(k);
    case CZ => assert FixedOps[8] == ClassName(k);
    case CY => assert FixedOps[9] == ClassName(k);
    case SWAP => assert FixedOps[10] == ClassName(k);
    case CSWAP => assert FixedOps[11] == ClassName(k);
    case Toffoli => assert FixedOps[12] == ClassName(k);
    case RX => assert ParameterizedOps[0] == ClassName(k);
    case RY => assert ParameterizedOps[1] == ClassName(k);
    case RZ => assert ParameterizedOps[2] == ClassName(k);
    case PhaseShift => assert ParameterizedOps[3] == ClassName(k);
    case Rot => assert ParameterizedOps[4] == ClassName(k);
    case MultiRZ => assert ParameterizedOps[5] == ClassName(k);
    case CRX => assert ParameterizedOps[6] == ClassName(k);
    case CRY => assert ParameterizedOps[7] == ClassName(k);
    case CRZ => assert ParameterizedOps[8] == ClassName(k);
    case CRot => assert ParameterizedOps[9] == ClassName(k);
    case U1 => assert ParameterizedOps[10] == ClassName(k);
  }

  /** Rot and CRot are the only classes with three parameters; the others have at most one. */
  lemma ParameterCounts(k: GateKind)
    ensures NumParams(k) == 3 <==> k == Rot || k == CRot
    ensures NumParams(k) != 3 ==> NumParams(k) <= 1
  {
  }

  /** MultiRZ is the only class of any arity; no class claims all wires; the rest act on 1 to 3 wires. */
  lemma WireArities(k: GateKind)
    ensures NumWires(k) == AnyWires <==> k == MultiRZ
    ensures NumWires(k) != AllWires
    ensures k != MultiRZ ==> 1 <= NumWires(k) <= 3
  {
  }

  /** Constant eigenvalue tables exist only for fixed gates, and for no parameterized gate, diagonal or not. */
  lemma EigvalsOnlyForFixedGates(k: GateKind)
    ensures EigvalsOf(k).Pass? ==> ClassName(k) in FixedOps
    ensures NumParams(k) >= 1 ==> EigvalsOf(k) == Fail(NotImplemented)
  {
  }

  /** As written, MultiRZ is the one class whose `matrix` property raises. */
  lemma MatrixAsWritten(k: GateKind)
    ensures MatrixOf(k).Err? <==> k == MultiRZ
    ensures k == MultiRZ ==> MatrixOf(k) == Err(WrongArguments)
    ensures MatrixOf(k).Ok? ==> (MatrixOf(k).value.Table? <==> ClassName(k) in FixedOps)
  {
  }

  /**
    With the wire count passed on, every class has a matrix: a table for the fixed ones, a
    formula otherwise, and the formula of the gate of any arity receives the wire count.
  */
  lemma MatrixCorrected(k: GateKind, nWires: Option<int>)
    ensures MatrixOfCorrected(k, nWires).Ok?
    ensures MatrixOfCorrected(k, nWires).value.Table? <==> ClassName(k) in FixedOps
    ensures MatrixOfCorrected(k, nWires).value.WireCountFormula? <==> NumWires(k) == AnyWires
    ensures NumWires(k) == AnyWires ==> MatrixOfCorrected(k, nWires).value.nWires == nWires
    ensures k != MultiRZ ==> MatrixOfCorrected(k, nWires) == MatrixOf(k)
  {
  }

  /**
    Exactly the observables diagonalize; each gate of a diagonalizing sequence is a one-wire
    gate like the observable itself.
  */
  lemma DiagonalizingGatesShape(k: GateKind)
    ensures DiagonalizingGates(k).Ok? <==> IsObservable(k)
    ensures DiagonalizingGates(k).Err? ==> DiagonalizingGates(k).error == AttributeMissing
    ensures DiagonalizingGates(k).Ok? ==>
      NumWires(k) == 1 &&
      forall g :: g in DiagonalizingGates(k).value ==> NumWires(g.kind) == 1
  {
  }

  /** The textbook basis changes, in the order they are applied. */
  lemma DiagonalizingSequences()
    ensures DiagonalizingGates(PauliX) == Ok([GateRequest(Hadamard, NoArgs)])
    ensures DiagonalizingGates(PauliY) ==
      Ok([GateRequest(PauliZ, NoArgs), GateRequest(S, NoArgs), GateRequest(Hadamard, NoArgs)])
    ensures DiagonalizingGates(PauliZ) == Ok([])
    ensures DiagonalizingGates(Hadamard) == Ok([GateRequest(RY, Args(true, false, Scalar(-Pi / 4.0), None))])
  {
  }
}
