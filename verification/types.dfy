/** The slice of the static type vocabulary the two rules inspect. Everything
    the rules do not look inside is an opaque `OtherT`. */
module Types {

  /** Three-valued answer of a subtype query. */
  datatype Verdict = Yes | Maybe | No {

    /** The single boolean query the rules ask: is the answer definitely yes? */
    predicate IsYes() {
      Yes?
    }
  }

  /** A static type. `MixedT(explicit)` separates a written `mixed` from a
      missing annotation; `ArrayT` covers every array type, constant ones
      included. */
  datatype Type =
    | IntT
    | StringT
    | ArrayT(key: Type, item: Type)
    | UnionT(members: seq<Type>)
    | MixedT(explicit: bool)
    | OtherT(name: string)

  /** The type of a parameter that carries no annotation at all. */
  predicate IsImplicitMixed(t: Type) {
    t.MixedT? && !t.explicit
  }
}
