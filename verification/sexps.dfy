/** CLVM values: atoms and pairs. */
module Sexps {
  import opened Wrappers

  datatype Sexp = Atom(bytes: Bytes) | Pair(left: Sexp, right: Sexp)

  const NIL: Sexp := Atom([])
}
