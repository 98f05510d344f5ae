/**
 The JavaScript values the route handlers inspect. A coordinate is a Mongoose `Number`
 field: either absent (`undefined`) or a number. Floating point is abstracted to `real`.
 */
module JsValues {

  /** A `Number` field of a location document as the handlers read it. */
  datatype Num = Undefined | Number(value: real)

  /** JavaScript truthiness of a coordinate: `undefined` and `0` are falsy. */
  predicate Truthy(n: Num) {
    n.Number? && n.value != 0.0
  }
}
