/** Optional values: a field the source may leave `undefined`, a `find` that may miss,
    a `Number.parseInt` that may yield `NaN`. */
module Opcion {

  datatype Option<+T> = None | Some(value: T)

}
