/**
 Running one task: its resolved arguments are lowered against the parameter types
 of the Wasm function, the function is called, and its output becomes IPLD.
 */
module Execution {
  import opened Wrappers
  import opened IpldModel
  import opened Wit
  import opened Inputs

  datatype Output = Value(v: Val) | Values(vs: seq<Val>) | Void

  datatype ExecError = Interpreter(e: Error) | Unresolved(cid: Cid)

  /**
   What is outside the model: the codecs, the parameter types of an instantiated
   function, a call of it, and the hash that names a receipt. All are deterministic.
   */
  datatype World = World(
    codec: Codec,
    params: (seq<Byte>, string) -> Option<seq<WitType>>,
    call: (seq<Byte>, string, seq<Val>) -> Option<Output>,
    receiptCid: (Cid, Ipld, Ipld) -> Cid)

  function LowerInput(c: Codec, t: WitType, input: Input): Result<Val, ExecError> {
    match input
    case InIpld(i) => LowerIpld(c, t, i)
    case InArg(r) =>
      (match r.inner
       case ArgIpld(i) => LowerIpld(c, t, i)
       case ArgValue(v) => Ok(v))
    case InDeferred(a) => Err(Unresolved(a.instruction))
  }

  function LowerIpld(c: Codec, t: WitType, i: Ipld): Result<Val, ExecError> {
    match Lower(c, i, FromType(t))
    case Ok(v) => Ok(v)
    case Err(e) => Err(Interpreter(e))
  }

  // ---------------------------------------------------------------------------
  // What a parameter gets
  // ---------------------------------------------------------------------------

  /** Text and truth values lower alike with their type and without one. */
  lemma {:induction false} LowerUntyped(c: Codec, i: Ipld, t: WitType)
    requires (t == TString || t == TBool) && Fits(i, t)
    ensures Lower(c, i, Any) == Lower(c, i, Typed(t))
    decreases i
  {
    if i.List? && i.items != [] { LowerUntyped(c, i.items[0], t); }
  }

  /** What lowers without a type is a truth value, a 64-bit number or text, of an input that fits it. */
  lemma {:induction false} UntypedFits(c: Codec, i: Ipld)
    requires Lower(c, i, Any).Ok?
    ensures var t := TypeOf(Lower(c, i, Any).value);
            && t in {TBool, TString, TInt(S64), TFloat64}
            && (t == TString || t == TBool ==> Fits(i, t))
    decreases i
  {
    if i.List? && i.items != [] { UntypedFits(c, i.items[0]); }
  }

  /** A parameter gets a value of its own type, the input lowered at that type, exactly when the input fits the type. */
  lemma ParameterTyped(c: Codec, t: WitType, i: Ipld)
    ensures Fits(i, t) <==> LowerIpld(c, t, i).Ok? && TypeOf(LowerIpld(c, t, i).value) == t
    ensures Fits(i, t) ==> LowerIpld(c, t, i).Ok? && Lower(c, i, Typed(t)) == Ok(LowerIpld(c, t, i).value)
  {
    LowerTyped(c, i, t);
    if (t == TString || t == TBool) && Fits(i, t) { LowerUntyped(c, i, t); }
    if FromType(t) == Any && Lower(c, i, Any).Ok? { UntypedFits(c, i); }
    if t.TChar? || t.TTuple? || t.TOther? { FitsNothing(i, t); }
  }

  lemma {:induction false} FitsNothing(i: Ipld, t: WitType)
    requires t.TChar? || t.TTuple? || t.TOther?
    ensures !Fits(i, t)
    decreases i
  {
    if i.List? && i.items != [] { FitsNothing(i.items[0], t); }
  }

  /**
   `v` is what a parameter of type `t` gets for an IPLD argument: it has that type exactly when
   the argument fits it, and then it is the argument at that type, and lifts back to it exactly
   when the argument is of an exact form.
   */
  ghost predicate Fitted(c: Codec, t: WitType, i: Ipld, v: Val) {
    && (TypeOf(v) == t <==> Fits(i, t))
    && (Fits(i, t) ==> Lower(c, i, Typed(t)) == Ok(v))
    && (Fits(i, t) && Faithful(c) && WellFormed(i) ==> (Lift(c, v) == Ok(i) <==> Exact(c, i, Typed(t))))
  }

  /** The same for any argument: a component value is passed as it is, an unresolved promise never. */
  ghost predicate Given(c: Codec, t: WitType, input: Input, v: Val) {
    match input
    case InIpld(i) => Fitted(c, t, i, v)
    case InArg(r) => (match r.inner case ArgIpld(i) => Fitted(c, t, i, v) case ArgValue(x) => v == x)
    case InDeferred(_) => false
  }

  lemma IpldFitted(c: Codec, t: WitType, i: Ipld)
    requires LowerIpld(c, t, i).Ok?
    ensures Fitted(c, t, i, LowerIpld(c, t, i).value)
  {
    ParameterTyped(c, t, i);
    if Fits(i, t) && Faithful(c) && WellFormed(i) { RoundTripExactly(c, i, Typed(t)); }
  }

  lemma InputGiven(c: Codec, t: WitType, input: Input)
    requires LowerInput(c, t, input).Ok?
    ensures Given(c, t, input, LowerInput(c, t, input).value)
  {
    match input
    case InIpld(i) => IpldFitted(c, t, i);
    case InArg(r) => if r.inner.ArgIpld? { IpldFitted(c, t, r.inner.ipld); }
    case InDeferred(_) =>
  }

  /**
   An argument that awaits an instruction is passed as what was found for it would be, if it
   stood there itself; if nothing was found it is an error that names the instruction.
   */
  lemma PromisePassed(c: Codec, t: WitType, input: Input, f: Lookup)
    requires PromiseOf(input).Some?
    ensures var passed := LowerInput(c, t, ResolveInput(c, input, f));
            match f(PromiseOf(input).value)
            case None => passed == Err(Unresolved(PromiseOf(input).value))
            case Some(r) =>
              match r.inner
              case ArgIpld(i) => passed == LowerInput(c, t, InIpld(i))
              case ArgValue(v) => passed == Ok(v)
  {
  }

  // ---------------------------------------------------------------------------
  // The call
  // ---------------------------------------------------------------------------

  /** How many arguments are passed: types and arguments are zipped. */
  function Passed(types: seq<WitType>, args: seq<Input>): nat {
    if |types| <= |args| then |types| else |args|
  }

  /** The parameters of a call: one for each passed argument, or the first error. */
  ghost function LowerArgs(c: Codec, types: seq<WitType>, args: seq<Input>): (r: Result<seq<Val>, ExecError>)
    ensures r.Ok? <==> forall k :: 0 <= k < Passed(types, args) ==> LowerInput(c, types[k], args[k]).Ok?
    ensures r.Ok? ==> |r.value| == Passed(types, args)
    ensures r.Ok? ==> forall k :: 0 <= k < Passed(types, args) ==> LowerInput(c, types[k], args[k]) == Ok(r.value[k])
    ensures r.Ok? ==> forall k :: 0 <= k < Passed(types, args) ==> Given(c, types[k], args[k], r.value[k])
  {
    if types == [] || args == [] then Ok([])
    else
      match LowerInput(c, types[0], args[0])
      case Err(e) => Err(e)
      case Ok(v) =>
        InputGiven(c, types[0], args[0]);
        match LowerArgs(c, types[1..], args[1..])
        case Err(e) => Err(e)
        case Ok(vs) => Ok([v] + vs)
  }

  /** The argument loop of `Env::execute`. */
  method LowerParams(c: Codec, types: seq<WitType>, args: seq<Input>) returns (r: Result<seq<Val>, ExecError>)
    ensures r == LowerArgs(c, types, args)
    ensures r.Ok? ==> |r.value| == Passed(types, args)
    ensures r.Ok? ==> forall k :: 0 <= k < |r.value| ==> Given(c, types[k], args[k], r.value[k])
  {
    var acc: seq<Val> := [];
    for k := 0 to Passed(types, args)
      invariant |acc| == k && forall j :: 0 <= j < k ==> LowerInput(c, types[j], args[j]) == Ok(acc[j])
    {
      match LowerInput(c, types[k], args[k])
      case Err(e) =>
        FirstError(c, types, args, k, e);
        return Err(e);
      case Ok(v) => acc := acc + [v];
    }
    assert acc == LowerArgs(c, types, args).value;
    r := Ok(acc);
  }

  lemma {:induction false} FirstError(c: Codec, types: seq<WitType>, args: seq<Input>, k: nat, e: ExecError)
    requires k < Passed(types, args) && LowerInput(c, types[k], args[k]) == Err(e)
    requires forall j :: 0 <= j < k ==> LowerInput(c, types[j], args[j]).Ok?
    ensures LowerArgs(c, types, args) == Err(e)
  {
    if k > 0 {
      FirstError(c, types[1..], args[1..], k - 1, e);
    }
  }

  ghost function Execute(w: World, wasm: seq<Byte>, fun: string, args: seq<Input>): Option<Output> {
    match w.params(wasm, fun)
    case None => None
    case Some(types) =>
      match LowerArgs(w.codec, types, args)
      case Err(_) => None
      case Ok(params) => w.call(wasm, fun, params)
  }

  /** No call is made with an unresolved promise among the arguments it passes. */
  lemma NoPromisePassed(w: World, wasm: seq<Byte>, fun: string, args: seq<Input>)
    requires Execute(w, wasm, fun, args).Some?
    ensures w.params(wasm, fun).Some?
    ensures forall k :: 0 <= k < Passed(w.params(wasm, fun).value, args) ==> !args[k].InDeferred?
  {
    var types := w.params(wasm, fun).value;
    forall k | 0 <= k < Passed(types, args) ensures !args[k].InDeferred? {
      assert LowerInput(w.codec, types[k], args[k]).Ok?;
    }
  }

  /** Two argument lists that differ only where one holds an unresolved promise. */
  ghost predicate Refines(args: seq<Input>, full: seq<Input>) {
    |args| == |full| && forall k :: 0 <= k < |args| ==> args[k] == full[k] || args[k].InDeferred?
  }

  /** A call that succeeds on partly resolved arguments gives what it gives on fully resolved ones. */
  lemma SucceedsAsResolved(w: World, wasm: seq<Byte>, fun: string, args: seq<Input>, full: seq<Input>)
    requires Refines(args, full) && Execute(w, wasm, fun, args).Some?
    ensures Execute(w, wasm, fun, full) == Execute(w, wasm, fun, args)
  {
    NoPromisePassed(w, wasm, fun, args);
    var types := w.params(wasm, fun).value;
    var a, b := LowerArgs(w.codec, types, args), LowerArgs(w.codec, types, full);
    assert forall k :: 0 <= k < Passed(types, args) ==> args[k] == full[k];
    assert a.value == b.value;
  }

  function OutputToIpld(c: Codec, o: Output): Result<Ipld, Error> {
    match o
    case Value(v) => Lift(c, v)
    case Values(vs) => (match LiftItems(c, vs) case Ok(xs) => Ok(List(xs)) case Err(e) => Err(e))
    case Void => Ok(Null)
  }
}
