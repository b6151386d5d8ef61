/** A JavaScript number as this model needs it: an exact real, or one of the values that are not finite. */
module JsNumber {
  const MAX_SAFE_INTEGER: nat := 9007199254740991

  datatype Number = Finite(value: real) | NonFinite

  predicate IsSafeInteger(n: Number) {
    n.Finite? && n.value == n.value.Floor as real && -(MAX_SAFE_INTEGER as int) <= n.value.Floor <= MAX_SAFE_INTEGER
  }
}
