/** The syntax-node shapes the rules distinguish. */
module Ast {
  import opened Wrappers

  /** An expression node. `DimFetch(base, None)` is the append form `$a[]`;
      `DimFetch(base, Some(i))` is `$a[i]`. */
  datatype Expr =
    | Assign(lhs: Expr)
    | DimFetch(base: Expr, dim: Option<Expr>)
    | PropFetch(object: Expr, property: string)
    | StaticPropFetch(className: string, property: string)
    | OtherExpr(name: string)

  /** True for `$obj->prop` and `Cls::$prop`. */
  predicate IsPropertyAccess(e: Expr) {
    e.PropFetch? || e.StaticPropFetch?
  }
}
