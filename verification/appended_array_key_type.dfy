/** The rule that checks the key written by `$obj->prop[k] = v`,
    `Cls::$prop[k] = v` and their append forms against the key type the
    property's array type declares. */
module AppendedArrayKeyType {
  import opened Wrappers
  import opened Types
  import opened Ast
  import opened Analyser
  import opened Diagnostics

  /** The type-algebra collaborators the rule calls, left uninterpreted:
      `allowedKeys` is the type of all valid array keys,
      `isSuperTypeOf(receiver, candidate)` the three-valued subtype query, and
      `castToArrayKeyType` the coercion of a value into the key it becomes. */
  datatype TypeOracles = TypeOracles(
    allowedKeys: Type,
    isSuperTypeOf: (Type, Type) -> Verdict,
    castToArrayKeyType: Type -> Type)

  /** The key an explicit index of type `dimensionType` is checked as, or None
      when the rule stays silent: the index is not definitely a valid key
      (another rule reports that), or it canonicalises to a union while union
      checking is off. */
  function ExplicitKeyType(checkUnionTypes: bool, dimensionType: Type, o: TypeOracles): (key: Option<Type>)
    ensures key.Some? <==>
      o.isSuperTypeOf(o.allowedKeys, dimensionType).IsYes()
      && (checkUnionTypes || !o.castToArrayKeyType(dimensionType).UnionT?)
    ensures key.Some? ==> key.value == o.castToArrayKeyType(dimensionType)
  {
    if !o.isSuperTypeOf(o.allowedKeys, dimensionType).IsYes() then
      None
    else
      var keyType := o.castToArrayKeyType(dimensionType);
      if !checkUnionTypes && keyType.UnionT? then None else Some(keyType)
  }

  /** The key an index write is checked with: the integer type for `$a[] = v`,
      the canonicalised index type otherwise. Defined for every write, even
      those the rule skips. */
  function EffectiveKeyType(target: Expr, scope: Scope, o: TypeOracles): Type
    requires target.DimFetch?
  {
    match target.dim
    case None => IntT
    case Some(index) => o.castToArrayKeyType(scope.getType(index))
  }

  /** Declarative reading of the guard chain: the write targets an index of a
      property whose type is an array, and an explicit index is definitely a
      valid key that is not a union unless union checking is on. */
  predicate Applies(checkUnionTypes: bool, target: Expr, scope: Scope, o: TypeOracles)
  {
    && target.DimFetch?
    && IsPropertyAccess(target.base)
    && scope.getType(target.base).ArrayT?
    && (target.dim.Some? ==>
          && o.isSuperTypeOf(o.allowedKeys, scope.getType(target.dim.value)).IsYes()
          && (checkUnionTypes || !EffectiveKeyType(target, scope, o).UnionT?))
  }

  /** The rule, as a guard chain with early exits. */
  function ProcessNode(checkUnionTypes: bool, node: Expr, scope: Scope, o: TypeOracles): (errors: seq<Diagnostic>)
    requires node.Assign?
    ensures |errors| <= 1
    // the guards: each one alone silences the rule
    ensures !node.lhs.DimFetch? ==> errors == []
    ensures node.lhs.DimFetch? && !IsPropertyAccess(node.lhs.base) ==> errors == []
    ensures node.lhs.DimFetch? && !scope.getType(node.lhs.base).ArrayT? ==> errors == []
    ensures node.lhs.DimFetch? && node.lhs.dim.Some?
            && !o.isSuperTypeOf(o.allowedKeys, scope.getType(node.lhs.dim.value)).IsYes()
            ==> errors == []
    ensures node.lhs.DimFetch? && node.lhs.dim.Some? && !checkUnionTypes
            && o.castToArrayKeyType(scope.getType(node.lhs.dim.value)).UnionT?
            ==> errors == []
    // past the guards: a report exactly when the key is not definitely accepted
    ensures errors != [] <==>
      Applies(checkUnionTypes, node.lhs, scope, o)
      && !o.isSuperTypeOf(scope.getType(node.lhs.base).key, EffectiveKeyType(node.lhs, scope, o)).IsYes()
    ensures errors != [] ==>
      errors[0] == Diagnostic(ArrayKeyNotAccepted(scope.getType(node.lhs.base),
                                                  EffectiveKeyType(node.lhs, scope, o)), None)
  {
    var target := node.lhs;
    if !target.DimFetch? then []
    else if !IsPropertyAccess(target.base) then []
    else
      var arrayType := scope.getType(target.base);
      if !arrayType.ArrayT? then []
      else
        var keyType :=
          match target.dim
          case Some(index) => ExplicitKeyType(checkUnionTypes, scope.getType(index), o)
          case None => Some(IntT);
        match keyType
        case None => []
        case Some(k) =>
          if !o.isSuperTypeOf(arrayType.key, k).IsYes() then
            [Diagnostic(ArrayKeyNotAccepted(arrayType, k), None)]
          else
            []
  }

  /** In the append form the effective key is the integer type, and whether
      the rule reports depends only on the array's key type accepting it. */
  lemma AppendChecksIntegerKey(checkUnionTypes: bool, node: Expr, scope: Scope, o: TypeOracles)
    requires node.Assign? && node.lhs.DimFetch? && node.lhs.dim.None?
    requires IsPropertyAccess(node.lhs.base) && scope.getType(node.lhs.base).ArrayT?
    ensures ProcessNode(checkUnionTypes, node, scope, o) != [] <==>
            !o.isSuperTypeOf(scope.getType(node.lhs.base).key, IntT).IsYes()
    ensures ProcessNode(checkUnionTypes, node, scope, o) != [] ==>
            ProcessNode(checkUnionTypes, node, scope, o)[0].message.keyType == IntT
  {
  }

  /** The union-checking flag is never consulted for the append form. */
  lemma AppendIgnoresUnionFlag(node: Expr, scope: Scope, o: TypeOracles)
    requires node.Assign? && node.lhs.DimFetch? && node.lhs.dim.None?
    ensures ProcessNode(false, node, scope, o) == ProcessNode(true, node, scope, o)
  {
  }

  /** Switching union checking off only ever removes reports: whatever the
      rule reports without it, it reports identically with it. */
  lemma UnionFlagOnlySuppresses(node: Expr, scope: Scope, o: TypeOracles)
    requires node.Assign?
    ensures ProcessNode(false, node, scope, o) != [] ==>
            ProcessNode(false, node, scope, o) == ProcessNode(true, node, scope, o)
    ensures ProcessNode(true, node, scope, o) == [] ==> ProcessNode(false, node, scope, o) == []
  {
  }
}
