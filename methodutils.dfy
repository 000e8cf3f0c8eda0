/**
 * org.kasource.commons.util.reflection.MethodUtils: checks on a method's
 * return type and parameter list.
 */
module MethodUtils {
  import opened Java
  import opened Reflect
  import opened Filters
  import Methods

  /** `hasMethodNoReturnType(method)` */
  function HasMethodNoReturnType(m: Method): (r: bool)
    ensures r <==> m.returnType == VOID
  {
    m.returnType == VOID
  }

  /**
   * No return type is the `returnType(Void.TYPE)` leaf filter, the test the
   * getter filter negates.
   */
  lemma NoReturnTypeIsVoidFilter(m: Method, jvm: Jvm)
    ensures HasMethodNoReturnType(m) <==> Methods.Passes(Leaf(Methods.ReturnType(VOID)), m, jvm)
    ensures HasMethodNoReturnType(m) <==> !Methods.Passes(Negation(Leaf(Methods.ReturnType(VOID))), m, jvm)
  {
  }

  /**
   * Why `verifyMethodSignature` rejects a method; each one is an
   * IllegalArgumentException whose message names the check that failed.
   */
  datatype SignatureFailure = NullMethod | ReturnTypeMismatch | ParameterCountMismatch | ParameterTypesMismatch

  /** `verifyMethodSignature(method, returnType, parameters)`: `None` when it returns normally, else the first failed check. */
  function VerifyMethodSignature(m: Option<Method>, returnType: Type, parameters: seq<Type>): (r: Option<SignatureFailure>)
    ensures r.None? <==> m.Some? && m.value.returnType == returnType && m.value.parameterTypes == parameters
  {
    if m.None? then Some(NullMethod)
    else if m.value.returnType != returnType then Some(ReturnTypeMismatch)
    else if |m.value.parameterTypes| != |parameters| then Some(ParameterCountMismatch)
    else if m.value.parameterTypes != parameters then Some(ParameterTypesMismatch)
    else None
  }

  /**
   * The checks run in order: null first, the return type before anything
   * about the parameters, the count before the element types.
   */
  lemma ChecksInOrder(m: Option<Method>, returnType: Type, parameters: seq<Type>)
    ensures m.None? ==> VerifyMethodSignature(m, returnType, parameters) == Some(NullMethod)
    ensures m.Some? && m.value.returnType != returnType ==>
      VerifyMethodSignature(m, returnType, parameters) == Some(ReturnTypeMismatch)
    ensures m.Some? && m.value.returnType == returnType && |m.value.parameterTypes| != |parameters| ==>
      VerifyMethodSignature(m, returnType, parameters) == Some(ParameterCountMismatch)
    ensures m.Some? && m.value.returnType == returnType && |m.value.parameterTypes| == |parameters| ==>
      (VerifyMethodSignature(m, returnType, parameters) == Some(ParameterTypesMismatch) <==>
        exists i :: 0 <= i < |parameters| && m.value.parameterTypes[i] != parameters[i])
  {
    if m.Some? && m.value.returnType == returnType && |m.value.parameterTypes| == |parameters| {
      if m.value.parameterTypes != parameters {
        var i :| 0 <= i < |parameters| && m.value.parameterTypes[i] != parameters[i];
      }
    }
  }
}
