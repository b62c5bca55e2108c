/** Values, states and the Option wrapper shared by the three promise tiers. */
module Common {

  /** The identity of a promise object: its index in the heap of promises. */
  type Id = nat

  datatype Option<T> = None | Some(value: T)

  /**
   * The JavaScript values a promise can be settled with. `Undefined` is the
   * initial `promiseResult` and the value of a return without an operand;
   * `Ref(id)` is a reference to a promise object, the only thenable value.
   */
  datatype Value =
    | Undefined
    | Num(n: int)
    | Str(s: string)
    | Ref(id: Id)

  /** The three values of the `promiseState` field. */
  datatype State = Pending | Fulfilled | Rejected
}
