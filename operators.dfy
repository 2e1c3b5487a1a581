/**
  The parameter lifecycle and the `forward` dispatch of pytorch_quantum/operators.py.
  An `Operator` instance owns an optional parameter tensor; `forward` checks that the
  parameters come from exactly one place (stored at construction, or given with the call),
  may replace the stored tensor by the given one, and makes one call to the gate's kernel
  in one of four shapes. The kernels are not modelled: a `QuantumDevice` only records the
  calls made on it.
*/
module Operators {
  import opened Outcomes
  import opened Gates

  /**
    A real tensor of two dimensions, its `requires_grad` flag, and whether it is an
    `nn.Parameter` (which a module registers when it is assigned to an attribute).
  */
  class Tensor {
    const data: array2<real>
    const requiresGrad: bool
    const isParameter: bool

    constructor (rows: nat, cols: nat, requiresGrad: bool, isParameter: bool)
      ensures fresh(data) && data.Length0 == rows && data.Length1 == cols
      ensures this.requiresGrad == requiresGrad && this.isParameter == isParameter
    {
      data := new real[rows, cols];
      this.requiresGrad := requiresGrad;
      this.isParameter := isParameter;
    }
  }

  /** A kernel `func(q_device, wires, ...)` in one of its four call shapes. */
  datatype KernelCall =
    | Plain(kernel: GateKind, wires: seq<int>)
    | WithWireCount(kernel: GateKind, wires: seq<int>, nWires: int)
    | WithParams(kernel: GateKind, wires: seq<int>, params: Tensor)
    | WithParamsAndWireCount(kernel: GateKind, wires: seq<int>, params: Tensor, nWires: int)
  {
    /** The `params=` keyword argument, if the call has one. */
    function ParamsArg(): Option<Tensor>
    {
      match this
      case WithParams(_, _, p) => Some(p)
      case WithParamsAndWireCount(_, _, p, _) => Some(p)
      case _ => None
    }

    /** The `n_wires=` keyword argument, if the call has one. */
    function WireCountArg(): Option<int>
    {
      match this
      case WithWireCount(_, _, n) => Some(n)
      case WithParamsAndWireCount(_, _, _, n) => Some(n)
      case _ => None
    }
  }

  /** The state the kernels update; here only the sequence of calls made on it. */
  class QuantumDevice {
    var applied: seq<KernelCall>

    constructor ()
      ensures applied == []
    {
      applied := [];
    }
  }

  /** The assertion at the head of `forward`: fixed gates pass; the others need has_params XOR given params. */
  predicate Admitted(name: string, hasParams: Option<bool>, given: bool)
  {
    name in FixedOps || (hasParams.Some? && hasParams.value != given)
  }

  /**
    `self.params = given` on an `nn.Module` whose `params` is a registered parameter: a value
    that is not an `nn.Parameter` is refused with TypeError.
  */
  predicate AssignmentRejected(stored: Tensor?, given: Tensor?)
  {
    given != null && stored != null && stored.isParameter && !given.isParameter
  }

  /** What an admitted `forward` leaves behind: the stored parameters and the kernel call made. */
  datatype Step = Step(params: Tensor?, call: KernelCall)

  /** The effect of `forward(q_device, wires, given)` on an instance in the given state. */
  function Dispatch(kind: GateKind, name: string, hasParams: Option<bool>, stored: Tensor?,
                    nWires: Option<int>, wires: seq<int>, given: Tensor?): (r: Result<Step>)
    ensures r.Ok? <==> Admitted(name, hasParams, given != null) && !AssignmentRejected(stored, given)
    ensures r.Err? ==>
      r.error == (if Admitted(name, hasParams, given != null) then WrongArguments
                  else if hasParams.None? then AttributeMissing
                  else ParameterConflict)
    ensures r.Ok? && stored != null && stored.isParameter ==> r.value.params != null && r.value.params.isParameter
    ensures r.Ok? && name !in FixedOps ==> (given != null <==> hasParams == Some(false))
    ensures r.Ok? ==> r.value.params == if given != null then given else stored
    ensures r.Ok? ==> r.value.call.kernel == kind && r.value.call.wires == wires
    ensures r.Ok? ==> r.value.call.ParamsArg() == if r.value.params == null then None else Some(r.value.params)
    ensures r.Ok? ==> r.value.call.WireCountArg() == nWires
  {
    if !Admitted(name, hasParams, given != null) then
      if hasParams.None? then Err(AttributeMissing) else Err(ParameterConflict)
    else if AssignmentRejected(stored, given) then
      Err(WrongArguments)
    else
      var p := if given != null then given else stored;
      var call :=
        if p == null then
          if nWires.None? then Plain(kind, wires) else WithWireCount(kind, wires, nWires.value)
        else
          if nWires.None? then WithParams(kind, wires, p) else WithParamsAndWireCount(kind, wires, p, nWires.value);
      Ok(Step(p, call))
  }

  /** The attributes an instance gets from its constructor. */
  datatype Fields = Fields(hasParams: Option<bool>, trainable: Option<bool>, nWires: Option<int>)

  /** The keywords of `Operation.__init__`, with their defaults filled in. */
  function Effective(args: CtorArgs): (a: CtorArgs)
    ensures a.Args?
    ensures args.Args? ==> a == args
    ensures args.NoArgs? ==> a == Args(false, false, Absent, None)
  {
    if args.NoArgs? then Args(false, false, Absent, None) else args
  }

  /**
    The attributes a constructor call sets. Observable-only classes have none of them (their
    `n_wires` stays None); the others take them from `Operation.__init__`, which turns
    `has_params` on when `trainable` is asked for.
  */
  function Built(req: GateRequest): (f: Fields)
    ensures f.hasParams.None? <==> FamilyOf(req.kind) == Observable
    ensures f.hasParams.None? ==> f.trainable.None? && f.nWires.None?
    ensures f.hasParams.Some? ==>
      var a := Effective(req.args);
      f.hasParams.value == (a.hasParams || a.trainable) && f.trainable == Some(a.trainable) && f.nWires == a.nWires
    ensures f.trainable == Some(true) ==> f.hasParams == Some(true)
  {
    if FamilyOf(req.kind) == Observable then Fields(None, None, None)
    else
      var a := Effective(req.args);
      Fields(Some(a.hasParams || a.trainable), Some(a.trainable), a.nWires)
  }

  /**
    Whether a constructor call raises: an observable's `__init__` takes no arguments, and a
    list of initial values longer than the parameter row runs past its last column.
  */
  function ConstructionCheck(req: GateRequest): (o: Outcome)
    ensures o.Fail? ==> o.error == WrongArguments || o.error == IndexOutOfRange
    ensures o == Fail(WrongArguments) <==> IsObservable(req.kind) && req.args.Args?
    ensures o == Fail(IndexOutOfRange) ==> Built(req).hasParams == Some(true)
    ensures req.args.NoArgs? ==> o == Pass
    ensures !(IsObservable(req.kind) && req.args.Args?) ==>
      (o == Fail(IndexOutOfRange) <==>
         Built(req).hasParams == Some(true) && Effective(req.args).init.Values? &&
         |Effective(req.args).init.values| > NumParams(req.kind))
  {
    var init := Effective(req.args).init;
    if IsObservable(req.kind) && req.args.Args? then Fail(WrongArguments)
    else if Built(req).hasParams == Some(true) && init.Values? && |init.values| > NumParams(req.kind) then
      Fail(IndexOutOfRange)
    else Pass
  }

  /** Entry (_, column) of a parameter tensor after `reset_params(init)`, given its value before. */
  ghost predicate ResetEntry(init: InitParams, column: nat, before: real, after: real)
  {
    match init
    case Absent => 0.0 <= after < TwoPi
    case Scalar(v) => after == v
    case Values(vs) => after == if column < |vs| then vs[column] else before
  }

  /**
    Entry (_, column) of a freshly built parameter row after its first reset. This is
    `ResetEntry` with the value before left unknown: `build_params` allocates the row with
    `torch.empty`, so a column that a short list of initial values does not reach holds
    whatever was there.
  */
  ghost predicate InitialEntry(init: InitParams, column: nat, x: real)
  {
    match init
    case Absent => 0.0 <= x < TwoPi
    case Scalar(v) => x == v
    case Values(vs) => column < |vs| ==> x == vs[column]
  }

  /** An instance of one of the gate classes. */
  class Operator {
    const kind: GateKind
    var name: string
    const hasParams: Option<bool>   // None for classes that are not an Operation
    const trainable: Option<bool>
    var params: Tensor?
    const nWires: Option<int>

    /** Parameters are present whenever the instance declares them, and training implies them. */
    ghost predicate Valid()
      reads this
    {
      (hasParams.None? <==> FamilyOf(kind) == Observable) &&
      (trainable.None? <==> hasParams.None?) &&
      (trainable == Some(true) ==> hasParams == Some(true)) &&
      (hasParams == Some(true) ==> params != null)
    }

    /**
      `Operator.__init__`, then `Observable.__init__` or `Operation.__init__` up to the
      allocation of the parameter row; the reset of its values is done by `Construct`.
    */
    constructor (k: GateKind, args: CtorArgs)
      requires IsObservable(k) ==> args.NoArgs?
      ensures Valid()
      ensures kind == k && name == ClassName(k)
      ensures hasParams == Built(GateRequest(k, args)).hasParams
      ensures trainable == Built(GateRequest(k, args)).trainable
      ensures nWires == Built(GateRequest(k, args)).nWires
      ensures hasParams == Some(true) ==>
        params != null && fresh(params) && fresh(params.data) &&
        params.data.Length0 == 1 && params.data.Length1 == NumParams(k) &&
        params.requiresGrad == trainable.value && params.isParameter
      ensures hasParams != Some(true) ==> params == null
    {
      var f := Built(GateRequest(k, args));
      kind := k;
      name := ClassName(k);
      hasParams := f.hasParams;
      trainable := f.trainable;
      nWires := f.nWires;
      params := null;
      new;
      if hasParams == Some(true) {
        params := BuildParams(trainable.value);
      }
    }

    /**
      `build_params`, a method of `Operation` only: a fresh parameter row of `num_params`
      entries whose gradient flag is `trainable`.
    */
    method BuildParams(trainable: bool) returns (t: Tensor)
      requires FamilyOf(kind) != Observable
      ensures fresh(t) && fresh(t.data)
      ensures t.data.Length0 == 1 && t.data.Length1 == NumParams(kind)
      ensures t.requiresGrad == trainable && t.isParameter
    {
      t := new Tensor(1, NumParams(kind), trainable, true);
    }

    /** The `name` setter. */
    method SetName(value: string)
      modifies this`name
      ensures name == value
    {
      name := value;
    }

    /**
      `reset_params(init)`: a scalar fills the tensor, a list fills column k with its k-th
      value (raising IndexError, after the columns before it are written, once the list runs
      past the last column), and no value draws every entry from [0, 2*pi). Like
      `build_params` it exists only on `Operation`: an observable-only instance has none.
    */
    method ResetParams(init: InitParams) returns (ok: bool)
      requires FamilyOf(kind) != Observable
      requires params != null
      modifies params.data
      ensures ok <==> !(init.Values? && |init.values| > params.data.Length1)
      ensures forall r, c | 0 <= r < params.data.Length0 && 0 <= c < params.data.Length1 ::
        ResetEntry(init, c, old(params.data[r, c]), params.data[r, c])
    {
      var a := params.data;
      match init
      case Values(vs) =>
        var k := 0;
        while k < |vs|
          invariant 0 <= k <= |vs| && k <= a.Length1
          invariant forall r, c | 0 <= r < a.Length0 && 0 <= c < a.Length1 ::
            a[r, c] == if c < k then vs[c] else old(a[r, c])
        {
          if k == a.Length1 {
            return false;
          }
          forall r | 0 <= r < a.Length0 {
            a[r, k] := vs[k];
          }
          k := k + 1;
        }
        ok := true;
      case Scalar(v) =>
        forall r, c | 0 <= r < a.Length0 && 0 <= c < a.Length1 {
          a[r, c] := v;
        }
        ok := true;
      case Absent =>
        var r := 0;
        while r < a.Length0
          invariant 0 <= r <= a.Length0
          invariant forall i, j | 0 <= i < r && 0 <= j < a.Length1 :: 0.0 <= a[i, j] < TwoPi
        {
          var c := 0;
          while c < a.Length1
            invariant 0 <= c <= a.Length1
            invariant forall i, j | 0 <= i < r && 0 <= j < a.Length1 :: 0.0 <= a[i, j] < TwoPi
            invariant forall j | 0 <= j < c :: 0.0 <= a[r, j] < TwoPi
          {
            var x :| 0.0 <= x < TwoPi;
            a[r, c] := x;
            c := c + 1;
          }
          r := r + 1;
        }
        ok := true;
    }

    /**
      `forward(q_device, wires, params)`: the admission check, the overwrite of the stored
      parameters by given ones (refused when a registered parameter would be replaced by a
      plain tensor), and one kernel call on the device.
    */
    method Forward(device: QuantumDevice, wires: seq<int>, given: Tensor?) returns (outcome: Outcome)
      requires Valid()
      modifies this`params, device`applied
      ensures Valid()
      ensures var d := Dispatch(kind, name, hasParams, old(params), nWires, wires, given);
        if d.Ok? then
          outcome == Pass && params == d.value.params && device.applied == old(device.applied) + [d.value.call]
        else
          outcome == Fail(d.error) && params == old(params) && device.applied == old(device.applied)
    {
      if !Admitted(name, hasParams, given != null) {
        return if hasParams.None? then Fail(AttributeMissing) else Fail(ParameterConflict);
      }
      if AssignmentRejected(params, given) {
        return Fail(WrongArguments);
      }
      if given != null {
        params := given;
      }
      var call;
      if params == null {
        if nWires.None? {
          call := Plain(kind, wires);
        } else {
          call := WithWireCount(kind, wires, nWires.value);
        }
      } else {
        if nWires.None? {
          call := WithParams(kind, wires, params);
        } else {
          call := WithParamsAndWireCount(kind, wires, params, nWires.value);
        }
      }
      device.applied := device.applied + [call];
      outcome := Pass;
    }
  }

  /**
    A constructor call `tq.<Kind>(...)` as a whole: it either raises, or yields an instance
    whose parameter row, if any, holds the requested initial values.
  */
  method Construct(req: GateRequest) returns (r: Result<Operator>)
    ensures r.Err? <==> ConstructionCheck(req).Fail?
    ensures r.Err? ==> r.error == ConstructionCheck(req).error
    ensures r.Ok? ==>
      var op := r.value;
      fresh(op) && op.Valid() && op.kind == req.kind && op.name == ClassName(req.kind) &&
      op.hasParams == Built(req).hasParams && op.trainable == Built(req).trainable &&
      op.nWires == Built(req).nWires &&
      (op.hasParams != Some(true) ==> op.params == null) &&
      (op.hasParams == Some(true) ==>
        op.params != null && fresh(op.params) && fresh(op.params.data) &&
        op.params.data.Length0 == 1 && op.params.data.Length1 == NumParams(req.kind) &&
        op.params.requiresGrad == op.trainable.value && op.params.isParameter &&
        forall c | 0 <= c < NumParams(req.kind) :: InitialEntry(Effective(req.args).init, c, op.params.data[0, c]))
  {
    if IsObservable(req.kind) && req.args.Args? {
      return Err(WrongArguments);
    }
    var op := new Operator(req.kind, req.args);
    if op.hasParams == Some(true) {
      var ok := op.ResetParams(Effective(req.args).init);
      if !ok {
        return Err(IndexOutOfRange);
      }
    }
    r := Ok(op);
  }

  // ---------------------------------------------------------------------------------------
  // Properties of construction and dispatch

  /** A parameterized gate in a valid state never reaches its kernel without parameters. */
  lemma ParameterizedGatesCallWithParams(kind: GateKind, name: string, hasParams: Option<bool>, stored: Tensor?,
                                         nWires: Option<int>, wires: seq<int>, given: Tensor?)
    requires name !in FixedOps
    requires hasParams == Some(true) ==> stored != null
    requires Dispatch(kind, name, hasParams, stored, nWires, wires, given).Ok?
    ensures Dispatch(kind, name, hasParams, stored, nWires, wires, given).value.call.ParamsArg().Some?
  {
  }

  /**
    Parameters given to one call are stored but do not admit the next: a gate built without
    parameters must be given them on every call, whatever it stores.
  */
  lemma GivenParamsNotReused(kind: GateKind, name: string, stored: Tensor?, nWires: Option<int>, wires: seq<int>)
    requires name !in FixedOps
    ensures Dispatch(kind, name, Some(false), stored, nWires, wires, null) == Err(ParameterConflict)
  {
  }

  /** Each gate of a diagonalizing sequence can be built as requested and applied without given parameters. */
  lemma DiagonalizingGatesApplicable(k: GateKind)
    requires DiagonalizingGates(k).Ok?
    ensures forall g | g in DiagonalizingGates(k).value ::
      ConstructionCheck(g) == Pass && Admitted(ClassName(g.kind), Built(g).hasParams, false)
  {
  }

  /** A gate built without parameters, applied with given ones and then without: the second call is refused. */
  method GivenParamsMustBeResupplied(given: Tensor, wires: seq<int>) returns (first: Outcome, second: Outcome, stored: Tensor?)
    ensures first == Pass && second == Fail(ParameterConflict) && stored == given
  {
    var device := new QuantumDevice();
    var r := Construct(GateRequest(RX, NoArgs));
    var op := r.value;
    first := op.Forward(device, wires, given);
    second := op.Forward(device, wires, null);
    stored := op.params;
  }

  /**
    S built trainable owns a registered parameter row; giving it a plain tensor is refused
    at the assignment, before any kernel call, and the row stays in place.
  */
  method PlainTensorCannotReplaceParameter(wires: seq<int>) returns (outcome: Outcome, calls: nat, replaced: bool)
    ensures outcome == Fail(WrongArguments) && calls == 0 && !replaced
  {
    var r := Construct(GateRequest(S, Args(false, true, Absent, None)));
    var op := r.value;
    var before := op.params;
    var plain := new Tensor(1, 1, false, false);
    var device := new QuantumDevice();
    outcome := op.Forward(device, wires, plain);
    calls := |device.applied|;
    replaced := op.params != before;
  }

  /** Hadamard's basis change: an RY of angle -pi/4, applied with its own stored parameter. */
  method HadamardBasisChange(wires: seq<int>) returns (outcome: Outcome, call: KernelCall, angle: real)
    ensures outcome == Pass && call.kernel == RY && call.wires == wires
    ensures call.ParamsArg().Some? && call.WireCountArg() == None
    ensures var t := call.ParamsArg().value; t.data.Length0 == 1 && t.data.Length1 == 1 && t.data[0, 0] == angle
    ensures angle == -Pi / 4.0
  {
    var gates := DiagonalizingGates(Hadamard).value;
    var r := Construct(gates[0]);
    var op := r.value;
    angle := op.params.data[0, 0];
    var device := new QuantumDevice();
    outcome := op.Forward(device, wires, null);
    call := device.applied[0];
  }
}
