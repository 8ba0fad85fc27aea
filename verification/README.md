# PHPStan array-key and parameter-typehint rules, modelled in Dafny

This project models two rules of the PHPStan static analyser as pure Dafny
functions from a syntax node and a scope to a list of diagnostics.

- `AppendedArrayKeyTypeRule` runs on assignments such as `$this->p[$k] = $v`,
  `Foo::$p[$k] = $v` and the append form `$this->p[] = $v`. It reports
  "Array (X) does not accept key Y." when the property's array type does not
  definitely accept the key being written. It has five early exits: the
  left side is not an index write; the indexed base is not a property or
  static-property fetch; the base is not an array type; an explicit index is
  not definitely a valid key (another rule reports that case); or the
  canonicalised key is a union while union checking is off. The append
  form checks the integer type as the key. A `Maybe` verdict counts as a
  violation.
- `MissingMethodParameterTypehintRule` runs on method declarations. Outside
  a class it raises an internal fault. Inside one it collects each
  parameter's reports in parameter order. A parameter with no annotation
  (implicit `mixed`) gets exactly one "no typehint" report. Any other
  parameter, an explicit `mixed` included, gets one report per iterable
  without a value type and then one per generic class without type
  arguments. Only the generic reports carry the turn-off tip.

Modules: `Types` (the `Type` variants the rules inspect and the three-valued
`Verdict`), `Ast` (expression nodes), `Analyser` (the `Scope` and the
`Fault` channel), `Diagnostics` (structured messages and tips),
`AppendedArrayKeyType` and `MissingMethodParameterTypehint` (the rules).
The collaborators whose code is not part of this model are uninterpreted
function-valued parameters: `Scope.getType`; the subtype query
`isSuperTypeOf(receiver, candidate)`, used both for the valid-keys type and
for the array's key type; `castToArrayKeyType`; and the two traversals of
`MissingTypehintCheck`. The "should not happen" exception is the `Failure`
side of a `Result`.

## Model

| member | source | states |
|---|---|---|
| AppendedArrayKeyType.ExplicitKeyType | src/Rules/Arrays/AppendedArrayKeyTypeRule.php:53-64 | An explicit index yields a key exactly when the valid-keys type definitely accepts its type (`Maybe` and `No` both skip), and the canonicalised key is not a union unless union checking is on; the key is then the canonicalised index type |
| AppendedArrayKeyType.ProcessNode | src/Rules/Arrays/AppendedArrayKeyTypeRule.php:35-80 | At most one report; each guard alone (no index write, base not a property fetch, base not an array, index not definitely a valid key, union key with union checking off) yields none; past the guards a report exists iff the array's key type does not definitely accept the effective key, and it names the array type and that key |
| AppendedArrayKeyType.AppendChecksIntegerKey | src/Rules/Arrays/AppendedArrayKeyTypeRule.php:65-77 | In the append form on an array property, the rule reports iff the array's key type does not definitely accept the integer type, and the reported key is the integer type |
| AppendedArrayKeyType.AppendIgnoresUnionFlag | src/Rules/Arrays/AppendedArrayKeyTypeRule.php:53-67 | For the append form the result is the same whether union checking is on or off |
| AppendedArrayKeyType.UnionFlagOnlySuppresses | src/Rules/Arrays/AppendedArrayKeyTypeRule.php:61-64 | Turning union checking off never adds or changes a report; it can only remove one |
| MissingMethodParameterTypehint.IterableDiagnostics | src/Rules/Methods/MissingMethodParameterTypehintRule.php:73-82 | One report per iterable finding, in finding order, naming the iterable type, with no tip |
| MissingMethodParameterTypehint.GenericDiagnostics | src/Rules/Methods/MissingMethodParameterTypehintRule.php:84-93 | One report per generic finding, in finding order, naming the class and its unbound type names, carrying the turn-off tip |
| MissingMethodParameterTypehint.CheckMethodParameter | src/Rules/Methods/MissingMethodParameterTypehintRule.php:58-96 | Implicit `mixed` gives exactly one untipped "no typehint" report; any other type (explicit `mixed` included) gives as many reports as the two traversals have findings, iterable ones first and generic ones after, each group in finding order, and no "no typehint" report; every report names this method and parameter, and only generic reports carry the tip |
| MissingMethodParameterTypehint.ParametersDiagnostics | src/Rules/Methods/MissingMethodParameterTypehintRule.php:42-50 | Every collected report is about one of the method's parameters, and only generic reports carry the tip |
| MissingMethodParameterTypehint.ProcessNode | src/Rules/Methods/MissingMethodParameterTypehintRule.php:34-51 | A fault, and no diagnostics, exactly when the scope is not inside a class; otherwise the collected reports of all parameters |
| MissingMethodParameterTypehint.ParametersDiagnosticsAppend | src/Rules/Methods/MissingMethodParameterTypehintRule.php:44-48 | Collecting over two runs of parameters is the concatenation of collecting over each |
| MissingMethodParameterTypehint.ParameterBlockInPlace | src/Rules/Methods/MissingMethodParameterTypehintRule.php:42-50 | The reports of parameter i appear unchanged after those of the earlier parameters and before those of the later ones: nothing dropped or reordered |

## Left out

- The rule dispatcher (`getNodeType` binding, source positions, the per-file
  diagnostic lists): its code is not part of this model. The Assign-only
  binding becomes the `requires node.Assign?` of the key rule.
- The internals of `Scope::getType`, `isSuperTypeOf`,
  `ArrayType::castToArrayKeyType`, `AllowedArrayKeysTypes::getType` and the
  two `MissingTypehintCheck` traversals: their code is not part of this model,
  so they are uninterpreted parameters.
- `getIterableKeyType` is modelled as the `key` field of `ArrayT`.
- Reflection lookups (`getClassReflection`, `getNativeMethod`,
  `ParametersAcceptorSelector::selectSingle`, `getDisplayName`): the method
  is given directly as its declaring class, name and parameter list.
- `sprintf`, `implode` and `describe(VerbosityLevel)`: messages are
  structured records that carry the types and names instead of text.
- The text of `MissingTypehintCheck::TURN_OFF_NON_GENERIC_CHECK_TIP` is not
  part of this model; the tip is the single value `TurnOffNonGenericCheck`.
- `RuleErrorBuilder`'s fluent interface: a diagnostic is built directly as
  a message plus an optional tip.
- Exception machinery beyond the `Fault` result.
- The checkstyle error formatter and the appended-item-type rule: neither
  is part of these two rules.
