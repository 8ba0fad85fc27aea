/** The rule that reports method parameters whose type is missing or only
    partly written: no annotation at all, an iterable without a value type,
    or a generic class without its type arguments. */
module MissingMethodParameterTypehint {
  import opened Wrappers
  import opened Types
  import opened Analyser
  import opened Diagnostics

  /** One generic class named in a parameter type without its type
      arguments, and the names of the type parameters left unbound. */
  datatype GenericFinding = GenericFinding(className: string, typeNames: seq<string>)

  /** The two traversals of the completeness analyser, left uninterpreted;
      each lists its findings in traversal order. */
  datatype MissingTypehintCheck = MissingTypehintCheck(
    iterablesWithMissingValueType: Type -> seq<Type>,
    genericsWithMissingTypes: Type -> seq<GenericFinding>)

  datatype Parameter = Parameter(name: string, ty: Type)

  /** The reflected method: its declaring class, its name and its parameters
      in declaration order. */
  datatype MethodReflection = MethodReflection(declaringClass: string, name: string,
                                               parameters: seq<Parameter>)

  function ParameterDiagnostic(m: MethodReflection, p: Parameter, problem: ParameterProblem): Diagnostic
  {
    var message := MethodParameter(m.declaringClass, m.name, p.name, problem);
    if problem.GenericMissingTypes? then Diagnostic(message, Some(TurnOffNonGenericCheck))
    else Diagnostic(message, None)
  }

  /** `d` is a report about parameter `p` of method `m`. */
  predicate Concerns(d: Diagnostic, m: MethodReflection, p: Parameter) {
    && d.message.MethodParameter?
    && d.message.className == m.declaringClass
    && d.message.methodName == m.name
    && d.message.parameterName == p.name
  }

  /** A diagnostic carries the turn-off tip exactly when it reports a generic
      class without its type arguments. */
  predicate TipOnlyOnGeneric(d: Diagnostic) {
    && (d.tip.Some? <==> (d.message.MethodParameter? && d.message.problem.GenericMissingTypes?))
    && (d.tip.Some? ==> d.tip.value == TurnOffNonGenericCheck)
  }

  /** One report per iterable lacking a value type, in finding order. */
  function IterableDiagnostics(m: MethodReflection, p: Parameter, iterables: seq<Type>): (ds: seq<Diagnostic>)
    ensures |ds| == |iterables|
    ensures forall k :: 0 <= k < |iterables| ==>
              ds[k] == Diagnostic(MethodParameter(m.declaringClass, m.name, p.name,
                                                  IterableMissingValueType(iterables[k])), None)
  {
    if iterables == [] then []
    else [ParameterDiagnostic(m, p, IterableMissingValueType(iterables[0]))]
         + IterableDiagnostics(m, p, iterables[1..])
  }

  /** One tipped report per generic class lacking type arguments, in finding order. */
  function GenericDiagnostics(m: MethodReflection, p: Parameter, generics: seq<GenericFinding>): (ds: seq<Diagnostic>)
    ensures |ds| == |generics|
    ensures forall k :: 0 <= k < |generics| ==>
              ds[k] == Diagnostic(MethodParameter(m.declaringClass, m.name, p.name,
                                                  GenericMissingTypes(generics[k].className, generics[k].typeNames)),
                                  Some(TurnOffNonGenericCheck))
  {
    if generics == [] then []
    else [ParameterDiagnostic(m, p, GenericMissingTypes(generics[0].className, generics[0].typeNames))]
         + GenericDiagnostics(m, p, generics[1..])
  }

  /** The reports for one parameter. */
  function CheckMethodParameter(check: MissingTypehintCheck, m: MethodReflection, p: Parameter): (ds: seq<Diagnostic>)
    // no annotation: exactly one report, and the traversals are not consulted
    ensures IsImplicitMixed(p.ty) ==>
      ds == [Diagnostic(MethodParameter(m.declaringClass, m.name, p.name, NoTypehint), None)]
    // otherwise (an explicit mixed included): iterable reports first, then generic ones
    ensures !IsImplicitMixed(p.ty) ==>
      var iterables := check.iterablesWithMissingValueType(p.ty);
      var generics := check.genericsWithMissingTypes(p.ty);
      && |ds| == |iterables| + |generics|
      && (forall k :: 0 <= k < |iterables| ==>
            ds[k].message == MethodParameter(m.declaringClass, m.name, p.name,
                                             IterableMissingValueType(iterables[k])))
      && (forall k :: 0 <= k < |generics| ==>
            ds[|iterables| + k].message == MethodParameter(m.declaringClass, m.name, p.name,
                                                           GenericMissingTypes(generics[k].className,
                                                                               generics[k].typeNames)))
      && (forall k :: 0 <= k < |ds| ==> ds[k].message.MethodParameter? && !ds[k].message.problem.NoTypehint?)
    ensures forall k :: 0 <= k < |ds| ==> Concerns(ds[k], m, p) && TipOnlyOnGeneric(ds[k])
  {
    if IsImplicitMixed(p.ty) then
      [ParameterDiagnostic(m, p, NoTypehint)]
    else
      IterableDiagnostics(m, p, check.iterablesWithMissingValueType(p.ty))
      + GenericDiagnostics(m, p, check.genericsWithMissingTypes(p.ty))
  }

  /** The reports for a run of parameters, concatenated in parameter order. */
  function ParametersDiagnostics(check: MissingTypehintCheck, m: MethodReflection, ps: seq<Parameter>): (ds: seq<Diagnostic>)
    ensures forall k :: 0 <= k < |ds| ==> TipOnlyOnGeneric(ds[k])
    ensures forall k :: 0 <= k < |ds| ==> exists j :: 0 <= j < |ps| && Concerns(ds[k], m, ps[j])
  {
    if ps == [] then []
    else
      var head := CheckMethodParameter(check, m, ps[0]);
      var tail := ParametersDiagnostics(check, m, ps[1..]);
      assert forall k :: 0 <= k < |tail| ==> exists j :: 0 <= j < |ps| && Concerns(tail[k], m, ps[j]) by {
        forall k | 0 <= k < |tail|
          ensures exists j :: 0 <= j < |ps| && Concerns(tail[k], m, ps[j])
        {
          var j :| 0 <= j < |ps[1..]| && Concerns(tail[k], m, ps[1..][j]);
          assert Concerns(tail[k], m, ps[j + 1]);
        }
      }
      assert forall k :: 0 <= k < |head| ==> Concerns(head[k], m, ps[0]);
      head + tail
  }

  /** The rule: a fault outside a class, otherwise every parameter's reports
      in parameter order. */
  function ProcessNode(scope: Scope, check: MissingTypehintCheck, m: MethodReflection): (r: Result<seq<Diagnostic>, Fault>)
    ensures !scope.isInClass <==> r == Failure(ShouldNotHappen)
    ensures scope.isInClass ==> r == Success(ParametersDiagnostics(check, m, m.parameters))
  {
    if !scope.isInClass then Failure(ShouldNotHappen)
    else Success(ParametersDiagnostics(check, m, m.parameters))
  }

  /** Concatenation distributes over splitting the parameter list. */
  lemma {:induction false} ParametersDiagnosticsAppend(check: MissingTypehintCheck, m: MethodReflection,
                                                     a: seq<Parameter>, b: seq<Parameter>)
    ensures ParametersDiagnostics(check, m, a + b)
            == ParametersDiagnostics(check, m, a) + ParametersDiagnostics(check, m, b)
  {
    if a == [] {
      assert a + b == b;
    } else {
      assert (a + b)[1..] == a[1..] + b;
      ParametersDiagnosticsAppend(check, m, a[1..], b);
    }
  }

  /** Nothing dropped, nothing reordered: the reports of parameter `i` sit
      unchanged right after those of the parameters before it, and those of
      the parameters after it follow. */
  lemma ParameterBlockInPlace(check: MissingTypehintCheck, m: MethodReflection, ps: seq<Parameter>, i: nat)
    requires i < |ps|
    ensures var before := ParametersDiagnostics(check, m, ps[..i]);
            var own := CheckMethodParameter(check, m, ps[i]);
            var after := ParametersDiagnostics(check, m, ps[i + 1..]);
            ParametersDiagnostics(check, m, ps) == before + own + after
  {
    assert ps == ps[..i] + ([ps[i]] + ps[i + 1..]);
    ParametersDiagnosticsAppend(check, m, ps[..i], [ps[i]] + ps[i + 1..]);
    assert ([ps[i]] + ps[i + 1..])[1..] == ps[i + 1..];
  }
}
