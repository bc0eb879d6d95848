/**
 * Model of nativepython/native_function_conversion_context.py: the context in
 * which native helper functions (destructors and the like) are assembled.  It
 * hands out fresh variable names from a counter and builds the native argument
 * list of the generated function from the input and output type wrappers.
 * The expression conversion context and the generating callback are foreign
 * and not part of this model.
 */
module NativeFunctionContext {
  import opened Text

  /** A native_ast type; only `Void` is distinguished. */
  datatype NativeType = Void | NativeTypeOf(id: nat)

  /** The parts of a type wrapper the context consults. */
  datatype TypeWrapper = TypeWrapper(
    id: nat,
    isEmpty: bool,
    isPassByRef: bool,
    nativePassingType: NativeType,
    nativeLayoutType: NativeType)

  /** What `subcontext.inputArg` or `subcontext.pushPod(t, nullExpr)` yields for one input. */
  datatype InputSlot = InputArg(argType: TypeWrapper, name: string) | NullPod(podType: TypeWrapper)

  /** The header of the generated `native_ast.Function`. */
  datatype NativeSignature = NativeSignature(args: seq<(string, NativeType)>, outputType: NativeType)

  /** The name `let_varname` returns once the counter has reached `n`. */
  function VarName(n: nat): string {
    ".var_" + Decimal(n)
  }

  /** The name of the `i`-th input argument, `'a_%s' % i`. */
  function ArgName(i: nat): string {
    "a_" + Decimal(i)
  }

  const ReturnArgName: string := ".return"

  lemma VarNameInjective(a: nat, b: nat)
    requires VarName(a) == VarName(b)
    ensures a == b
  {
    assert Decimal(a) == VarName(a)[5..];
    DecimalInjective(a, b);
  }

  lemma ArgNameInjective(a: nat, b: nat)
    requires ArgName(a) == ArgName(b)
    ensures a == b
  {
    assert Decimal(a) == ArgName(a)[2..];
    DecimalInjective(a, b);
  }

  class NativeFunctionConversionContext {
    var varnames: nat
    const inputTypes: seq<TypeWrapper>
    const outputType: TypeWrapper
    const identity: nat

    constructor (inputTypes: seq<TypeWrapper>, outputType: TypeWrapper, identity: nat)
      ensures varnames == 0
      ensures this.inputTypes == inputTypes && this.outputType == outputType && this.identity == identity
    {
      varnames := 0;
      this.inputTypes := inputTypes;
      this.outputType := outputType;
      this.identity := identity;
    }

    /** Bumps the counter and names the new value. */
    method LetVarname() returns (name: string)
      modifies this
      ensures varnames == old(varnames) + 1
      ensures name == VarName(varnames)
    {
      varnames := varnames + 1;
      name := ".var_" + Decimal(varnames);
    }

    /** Stack variables share the counter and the naming of `let` variables. */
    method StackVarname() returns (name: string)
      modifies this
      ensures varnames == old(varnames) + 1
      ensures name == VarName(varnames)
    {
      name := LetVarname();
    }

    /** The types of a native helper never change while it is converted. */
    function TypesAreUnstable(): (unstable: bool)
      ensures !unstable
    {
      false
    }

    function CurrentReturnType(): (t: TypeWrapper)
      ensures t == outputType
    {
      outputType
    }

    /** The function built from this context, paired with the unchanged output type. */
    function ConvertToNativeFunction(): (r: (NativeSignature, TypeWrapper))
      ensures r.1 == outputType
      ensures r.0 == GetFunction(inputTypes, outputType)
    {
      (GetFunction(inputTypes, outputType), outputType)
    }
  }

  /** The inputs handed to the generating function: one slot per input type. */
  function InputArgs(inputTypes: seq<TypeWrapper>): (slots: seq<InputSlot>)
    ensures |slots| == |inputTypes|
    ensures forall i :: 0 <= i < |slots| ==>
      if inputTypes[i].isEmpty then slots[i] == NullPod(inputTypes[i])
      else slots[i] == InputArg(inputTypes[i], ArgName(i))
  {
    seq(|inputTypes|, i requires 0 <= i < |inputTypes| =>
      if inputTypes[i].isEmpty then NullPod(inputTypes[i]) else InputArg(inputTypes[i], ArgName(i)))
  }

  /** The indices of the non-empty input types, in increasing order. */
  function NonEmptyIndices(inputTypes: seq<TypeWrapper>): (ix: seq<nat>)
    ensures forall k :: 0 <= k < |ix| ==> ix[k] < |inputTypes| && !inputTypes[ix[k]].isEmpty
    ensures forall k, l :: 0 <= k < l < |ix| ==> ix[k] < ix[l]
    ensures forall i :: 0 <= i < |inputTypes| && !inputTypes[i].isEmpty ==> i in ix
  {
    if inputTypes == [] then []
    else
      var n := |inputTypes| - 1;
      var front := NonEmptyIndices(inputTypes[..n]);
      if inputTypes[n].isEmpty then front else front + [n]
  }

  /** The native argument list before any output slot is added. */
  function NativeArgs(inputTypes: seq<TypeWrapper>): seq<(string, NativeType)> {
    var ix := NonEmptyIndices(inputTypes);
    seq(|ix|, k requires 0 <= k < |ix| => (ArgName(ix[k]), inputTypes[ix[k]].nativePassingType))
  }

  /** The native signature `getFunction` builds. */
  function GetFunction(inputTypes: seq<TypeWrapper>, outputType: TypeWrapper): NativeSignature {
    if outputType.isPassByRef then
      NativeSignature([(ReturnArgName, outputType.nativePassingType)] + NativeArgs(inputTypes), Void)
    else
      NativeSignature(NativeArgs(inputTypes), outputType.nativeLayoutType)
  }

  /**
   * The native arguments are `.return` first exactly when the output is passed
   * by reference (and then the native result is Void), followed by one `a_i`
   * per non-empty input carrying its passing type, in input order.
   */
  lemma GetFunctionShape(inputTypes: seq<TypeWrapper>, outputType: TypeWrapper)
    ensures var f := GetFunction(inputTypes, outputType);
      var off := if outputType.isPassByRef then 1 else 0;
      && |f.args| == off + |NonEmptyIndices(inputTypes)|
      && (outputType.isPassByRef ==>
            f.args[0] == (ReturnArgName, outputType.nativePassingType) && f.outputType == Void)
      && (!outputType.isPassByRef ==> f.outputType == outputType.nativeLayoutType)
      && (forall i :: 0 <= i < |inputTypes| ==>
            (!inputTypes[i].isEmpty <==> (ArgName(i), inputTypes[i].nativePassingType) in f.args[off..]))
      && var ix := NonEmptyIndices(inputTypes);
         forall k :: 0 <= k < |ix| ==> f.args[off + k] == (ArgName(ix[k]), inputTypes[ix[k]].nativePassingType)
  {
    var f := GetFunction(inputTypes, outputType);
    var off := if outputType.isPassByRef then 1 else 0;
    var ix := NonEmptyIndices(inputTypes);
    assert f.args[off..] == NativeArgs(inputTypes);
    NativeArgsMembership(inputTypes);
    forall k | 0 <= k < |ix|
      ensures f.args[off + k] == (ArgName(ix[k]), inputTypes[ix[k]].nativePassingType)
    {
      assert f.args[off + k] == NativeArgs(inputTypes)[k];
    }
  }

  /** Input `i` has a native argument iff it is non-empty. */
  lemma NativeArgsMembership(inputTypes: seq<TypeWrapper>)
    ensures forall i :: 0 <= i < |inputTypes| ==>
      (!inputTypes[i].isEmpty <==> (ArgName(i), inputTypes[i].nativePassingType) in NativeArgs(inputTypes))
  {
    var ix := NonEmptyIndices(inputTypes);
    forall i | 0 <= i < |inputTypes|
      ensures !inputTypes[i].isEmpty <==> (ArgName(i), inputTypes[i].nativePassingType) in NativeArgs(inputTypes)
    {
      if !inputTypes[i].isEmpty {
        var k :| 0 <= k < |ix| && ix[k] == i;
        assert NativeArgs(inputTypes)[k] == (ArgName(i), inputTypes[i].nativePassingType);
      } else if (ArgName(i), inputTypes[i].nativePassingType) in NativeArgs(inputTypes) {
        var k :| 0 <= k < |ix| && NativeArgs(inputTypes)[k] == (ArgName(i), inputTypes[i].nativePassingType);
        ArgNameInjective(ix[k], i);
      }
    }
  }

  /** No two native arguments share a name. */
  lemma GetFunctionNamesDistinct(inputTypes: seq<TypeWrapper>, outputType: TypeWrapper)
    ensures var f := GetFunction(inputTypes, outputType);
      forall a, b :: 0 <= a < b < |f.args| ==> f.args[a].0 != f.args[b].0
  {
    var args := NativeArgs(inputTypes);
    NativeArgNamesDistinct(inputTypes);
    if outputType.isPassByRef {
      var all := [(ReturnArgName, outputType.nativePassingType)] + args;
      forall a, b | 0 <= a < b < |all| ensures all[a].0 != all[b].0 {
        if a == 0 {
          assert all[b] == args[b - 1];
          assert args[b - 1].0[0] == 'a';
        } else {
          assert all[a] == args[a - 1] && all[b] == args[b - 1];
        }
      }
    }
  }

  /** The input arguments carry pairwise distinct names `a_i`. */
  lemma NativeArgNamesDistinct(inputTypes: seq<TypeWrapper>)
    ensures var args := NativeArgs(inputTypes);
      && (forall k :: 0 <= k < |args| ==> |args[k].0| > 0 && args[k].0[0] == 'a')
      && (forall a, b :: 0 <= a < b < |args| ==> args[a].0 != args[b].0)
  {
    var ix := NonEmptyIndices(inputTypes);
    var args := NativeArgs(inputTypes);
    forall a, b | 0 <= a < b < |args| ensures args[a].0 != args[b].0 {
      if args[a].0 == args[b].0 {
        ArgNameInjective(ix[a], ix[b]);
      }
    }
  }
}
