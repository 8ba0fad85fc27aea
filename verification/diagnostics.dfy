/** Structured diagnostics: what is reported, about whom, and an optional tip.
    Source positions are attached by the dispatcher, not by rules. */
module Diagnostics {
  import opened Wrappers
  import opened Types

  /** What is wrong with one method parameter. */
  datatype ParameterProblem =
    | NoTypehint
    | IterableMissingValueType(iterableType: Type)
    | GenericMissingTypes(genericClass: string, typeNames: seq<string>)

  datatype Message =
    /** "Array (X) does not accept key Y." */
    | ArrayKeyNotAccepted(arrayType: Type, keyType: Type)
    /** "Method C::m() has parameter $p ..." */
    | MethodParameter(className: string, methodName: string, parameterName: string,
                      problem: ParameterProblem)

  /** The only tip these rules attach: how to switch off the generic check. */
  datatype Tip = TurnOffNonGenericCheck

  datatype Diagnostic = Diagnostic(message: Message, tip: Option<Tip>)
}
