# Quantum gate operators: catalogue, parameter lifecycle and dispatch

This project models the discrete bookkeeping of the operator classes in
`pytorch_quantum/operators.py`. It covers:

- the gate catalogue: the `fixed_ops` and `parameterized_ops` name lists, `num_params`,
  `num_wires` with the `AnyWires`/`AllWires` sentinels, the abstract class each gate derives
  from, where its matrix and eigenvalues come from, and the diagonalizing-gate sequences of
  the observables (module `Gates`, file `gates.dfy`);
- `DiagonalOperation._matrix`, which is `torch.diag` of an eigenvalue vector, over an abstract
  element type (module `DiagonalMatrix`, file `diagonal.dfy`). Every concrete diagonal class
  (S, T, CZ, RZ, PhaseShift, MultiRZ, U1) overrides `_matrix`, so no class of the catalogue
  reaches this definition; it is modelled for subclasses that do not override it;
- the life of an instance: construction, where `trainable` without `has_params` turns
  `has_params` on; the `[1, num_params]` parameter row; `reset_params` with a scalar, a list or
  nothing; the `name` setter; and `forward`, which checks where the parameters come from, may
  store the given ones and makes one kernel call in one of four shapes (module `Operators`,
  file `operators.dfy`);
- the Python exceptions on these paths, as an `Error` value (module `Outcomes`, file `outcomes.dfy`).

An instance is a class `Operator` with the fields `name`, `has_params`, `trainable`,
`params` and `n_wires`. A parameter tensor is a class `Tensor` over a two-dimensional
`array2<real>` with its `requires_grad` flag and whether it is an `nn.Parameter`. `forward` stores a given tensor by reference,
as the source does. The kernels (`tqf.rx`, `tqf.cnot`, ...) are not modelled. A `QuantumDevice`
only records the calls made on it, each with its shape and arguments. Parameter values are
exact reals. The random initialisation is a nondeterministic choice in `[0, TwoPi)`.

Notes on the code's behaviour:

- A list of initial values shorter than the parameter row is accepted: only its columns are
  written. A list longer than the row raises IndexError once it runs past the last column,
  after the earlier columns were written.
- The diagonal gates with parameters (RZ, PhaseShift, MultiRZ, U1) expose no eigenvalues: their
  `eigvals` reaches `DiagonalOperation._eigvals`, which raises NotImplementedError. Only the
  classes with a constant `eigvals` attribute (Hadamard, PauliX/Y/Z, S, T, SX, CZ) have them.
- The kernel receives `params=` exactly when the stored `self.params` is not None, and
  `n_wires=` exactly when `self.n_wires` is not None. This does not depend on the gate's
  category or arity: a fixed gate built with `has_params` still passes its (empty) row.
- The admission check of `forward` is an `or`: a fixed gate is always admitted. A name not in
  `fixed_ops` needs `has_params` XOR given parameters. PauliX, PauliY and PauliZ have no
  `has_params` attribute at all. After the name setter gives one of them a name outside
  `fixed_ops`, `forward` raises AttributeError.
- An instance built with parameters holds them as an `nn.Parameter`, which `nn.Module`
  registers. Giving `forward` a plain tensor then fails at `self.params = params` with
  TypeError, before any kernel call. For example, S built with `trainable=True` refuses
  `forward(q_device, wires, params=t)` for a plain tensor `t`.
- Hadamard, PauliX, PauliY and PauliZ are built by `Observable.__init__`, which takes no
  arguments. Passing any raises TypeError. Hadamard then gets the `Operation` defaults.

## Model

| member | source | states |
|---|---|---|
| `Gates.NumWires` | pytorch_quantum/operators.py:206-510 | every class acts on a fixed number of wires between 1 and 3, or on any number (`AnyWires`); none uses `AllWires` |
| `Gates.NumParams` | pytorch_quantum/operators.py:206-510 | every class has 0, 1 or 3 parameters; a class of any arity has exactly one |
| `Gates.FamilyOf` | pytorch_quantum/operators.py:125-510 | the observable classes have no parameters and act on one wire; no diagonal class acts on three wires |
| `Gates.MatrixOf` | pytorch_quantum/operators.py:158-162 | the property itself raises only for the class of any arity (TypeError); it never passes a wire count |
| `Gates.MatrixOfCorrected` | pytorch_quantum/operators.py:452-459 | with the wire count passed on, every class has a matrix, and the wire count is passed exactly to the classes of any arity |
| `Gates.EigvalsOf` | pytorch_quantum/operators.py:164-198 | `eigvals` answers only for classes without parameters and otherwise raises NotImplementedError; every observable and every diagonal class without parameters answers |
| `Gates.DiagonalizingGates` | pytorch_quantum/operators.py:125-280 | `diagonalizing_gates` exists exactly for the observables (others raise AttributeError); no observable lists itself, and each listed gate has at most one parameter |
| `Gates.OpListsDisjoint` | pytorch_quantum/operators.py:35-63 | no name is in both `fixed_ops` and `parameterized_ops` |
| `Gates.ClassListed` | pytorch_quantum/operators.py:35-63 | every gate class's name is in `fixed_ops` iff its `num_params` is 0, and in `parameterized_ops` iff it is at least 1 |
| `Gates.ParameterCounts` | pytorch_quantum/operators.py:402-510 | Rot and CRot are exactly the classes with three parameters; every other class has at most one |
| `Gates.WireArities` | pytorch_quantum/operators.py:16-510 | MultiRZ is the only class with `num_wires = AnyWires`; no class uses `AllWires`; all others act on 1 to 3 wires |
| `Gates.EigvalsOnlyForFixedGates` | pytorch_quantum/operators.py:164-198 | `eigvals` answers only for classes in `fixed_ops`; every class with parameters raises NotImplementedError, diagonal ones included |
| `Gates.MatrixAsWritten` | pytorch_quantum/operators.py:158-162 | as written, MultiRZ is the one class whose `matrix` property raises (TypeError); for the others the matrix is a `mat_dict` entry iff the class is in `fixed_ops` |
| `Gates.MatrixCorrected` | pytorch_quantum/operators.py:452-459 | when the wire count is passed on, every class has a matrix; the any-arity formula receives `n_wires`; all other classes are unchanged |
| `Gates.DiagonalizingGatesShape` | pytorch_quantum/operators.py:125-131 | exactly the observables have `diagonalizing_gates` (others raise AttributeError); each gate in a sequence acts on one wire, like the observable |
| `Gates.DiagonalizingSequences` | pytorch_quantum/operators.py:220-280 | PauliX gives [Hadamard]; PauliY gives [PauliZ, S, Hadamard] in that order; PauliZ gives []; Hadamard gives [RY with parameters, not trainable, initial value -pi/4] |
| `DiagonalMatrix.Diag` | pytorch_quantum/operators.py:200-202 | `diag(eigvals)` is square of side `len(eigvals)`, with entry (i,i) = eigvals[i] and zero everywhere else |
| `DiagonalMatrix.DiagRoundTrip` | pytorch_quantum/operators.py:200-202 | `torch.diag` of an eigenvalue vector (`DiagonalOperation._matrix`) is a diagonal matrix, and its main diagonal gives back the vector |
| `DiagonalMatrix.DiagOfDiagonal` | pytorch_quantum/operators.py:200-202 | every diagonal square matrix is `diag` of its own main diagonal |
| `Operators.Effective` | pytorch_quantum/operators.py:135-139 | explicit keywords are kept; a call without keywords gets the defaults: no parameters, not trainable, no initial values, no wire count |
| `Operators.ConstructionCheck` | pytorch_quantum/operators.py:126-188 | a constructor call raises TypeError iff an observable gets arguments; otherwise it raises IndexError iff the instance has parameters and its list of initial values is longer than the row; a call without arguments never raises |
| `Operators.Built` | pytorch_quantum/operators.py:144-156 | observable-only classes get no parameter attributes; the others keep `trainable` and `n_wires`, and `has_params` becomes `has_params or trainable`, so a trainable instance always has parameters |
| `Operators.Dispatch` | pytorch_quantum/operators.py:100-122 | `forward` is admitted iff the name is in `fixed_ops` or `has_params` XOR given params; it raises AssertionError otherwise, or AttributeError when `has_params` does not exist; an admitted call raises TypeError iff it gives a plain tensor to an instance holding a registered parameter, so a parameter is only ever replaced by a parameter; a successful non-fixed call takes parameters from exactly one place; the stored params become the given ones if any; the kernel call carries `wires` unchanged, `params` iff the stored params are not None, `n_wires` iff set |
| `Operators.Operator.constructor` | pytorch_quantum/operators.py:134-156 | name is the class name; `has_params`, `trainable`, `n_wires` as `Built` says; with parameters, `params` is a fresh 1-by-`num_params` parameter whose gradient flag is `trainable`; without, `params` is None |
| `Operators.Operator.BuildParams` | pytorch_quantum/operators.py:173-178 | defined only for `Operation` subclasses; a fresh `nn.Parameter` of shape [1, num_params] with `requires_grad == trainable` |
| `Operators.Operator.SetName` | pytorch_quantum/operators.py:70-72 | the name becomes the given value |
| `Operators.Operator.ResetParams` | pytorch_quantum/operators.py:180-188 | defined only for `Operation` subclasses; a scalar sets every entry; a list sets column k to `init[k]` for each k it covers and leaves the other columns unchanged, failing iff it is longer than the row; no value leaves every entry in [0, 2 pi) |
| `Operators.Operator.Forward` | pytorch_quantum/operators.py:99-122 | a refused call changes nothing and makes no kernel call; an admitted one stores the params `Dispatch` says and appends exactly one kernel call to the device |
| `Operators.Construct` | pytorch_quantum/operators.py:134-156 | a constructor call raises iff an observable gets arguments or an initial list is longer than the row; otherwise the instance is valid, with the built attributes and a 1-by-`num_params` row holding the requested initial values |
| `Operators.ParameterizedGatesCallWithParams` | pytorch_quantum/operators.py:100-122 | a gate outside `fixed_ops` whose declared parameters are stored never reaches its kernel without `params` |
| `Operators.GivenParamsNotReused` | pytorch_quantum/operators.py:100-109 | for a gate outside `fixed_ops` built without parameters, a call without params is refused, whatever an earlier call stored |
| `Operators.DiagonalizingGatesApplicable` | pytorch_quantum/operators.py:220-261 | every gate of a diagonalizing sequence can be built as requested and applied without given parameters |
| `Operators.GivenParamsMustBeResupplied` | pytorch_quantum/operators.py:99-109 | RX built with defaults: a call with params passes and stores them; the next call without params is refused |
| `Operators.PlainTensorCannotReplaceParameter` | pytorch_quantum/operators.py:99-109 | S built trainable, given a plain tensor: `forward` raises TypeError, makes no kernel call and keeps its parameter |
| `Operators.HadamardBasisChange` | pytorch_quantum/operators.py:220-223 | the RY of Hadamard's basis change holds -pi/4 and is applied with its stored params (a 1-by-1 row holding that angle) and no wire count |

## Left out

- The numeric content of matrices and eigenvalues (`mat_dict`, the `tqf.*_matrix` functions, the eigenvalue tables) is not modelled. These are complex floating-point values. A matrix is identified by its table key or formula name.
- The kernels (`tqf.hadamard`, `tqf.rx`, ...) and the state update of `QuantumDevice` are external. A device records each call's shape and arguments instead of changing amplitudes.
- torch and `nn.Module` machinery is not modelled beyond one flag: a tensor records whether it is an `nn.Parameter`, and assigning a plain tensor over a registered parameter fails. `register_parameter` and its naming, autograd, and the dtypes `C_DTYPE`/`F_DTYPE` are not modelled. `requires_grad` is a plain boolean fixed at allocation.
- Logging (`logger.warning`, `logger.exception`) is not modelled. The soft correction of `has_params` is visible only through its effect.
- Observable's `return_type` attribute is not modelled; nothing in the core reads it.
- `Operation.init_params` (which raises NotImplementedError) and the default `Observable.diagonalizing_gates` are not modelled separately. Every observable in the catalogue overrides the latter.
- What the `tqf.*_matrix` formulas do when `params` is None (an instance built without parameters) is not modelled: `Gates.MatrixOf` only names the formula the property calls.
- The MultiRZ matrix formula itself, `_matrix(params, n_wires)`, is not modelled. Only the call shapes are.
- Operators.Operator.ResetParams: the random path states only that every entry lies in [0, 2 pi). The uniform distribution is not modelled. `params` must not be None. With None, the source's empty list does nothing, a non-empty list raises TypeError at `self.params[:, k]`, and a scalar or no value fails inside torch's init functions.
- Operators.Built, Operators.Dispatch: the correction of `has_params` for a trainable instance (lines 144-149) and the admission check of `forward` (lines 100-106) are Python `assert` statements. The model assumes assertions are enabled; under `python -O` `has_params` is not corrected and every call is admitted.
- Operators.Dispatch: the parameters given to `forward` are modelled as a two-dimensional tensor. Python accepts any object there.

## Findings

| source | as written | input that shows it | evidently intended | confidence | as-written member | corrected member |
|---|---|---|---|---|---|---|
| pytorch_quantum/operators.py:158-162 | the `matrix` property calls `self._matrix(self.params)`, but `MultiRZ._matrix` takes `(params, n_wires)` | `MultiRZ(has_params=True, n_wires=2).matrix` raises TypeError for the missing `n_wires` | the property passes `self.n_wires` to gates of any arity | not executed; high, from the two signatures | `Gates.MatrixAsWritten` | `Gates.MatrixCorrected` |
