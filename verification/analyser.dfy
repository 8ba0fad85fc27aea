/** The ambient context a rule receives with each node. */
module Analyser {
  import opened Types
  import opened Ast

  /** Type queries at one program point. `getType` is the external inference
      engine; it is left uninterpreted. */
  datatype Scope = Scope(getType: Expr -> Type, isInClass: bool)

  /** An internal-consistency violation, kept apart from user diagnostics. */
  datatype Fault = ShouldNotHappen
}
