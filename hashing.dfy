/**
 * `java.util.Objects.hash(this::class, name, f1, f2, ...)` is a deterministic
 * function of its argument list. The model keeps that argument list instead
 * of the hash code: equal argument lists give equal hash codes.
 */
module Hashing {

  datatype HashInput = HashInput(className: string, name: string, fields: seq<int>)
}
