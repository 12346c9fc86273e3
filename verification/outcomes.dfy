/** How a Java call ends: it returns a value or it throws. */
module Outcomes {

  datatype Option<T> = None | Some(value: T)

  /** The values the modelled methods return or receive: `void`, or a `String`. */
  datatype Value = Void | Str(s: string)

  /** The throwable classes that occur in the model. `JavaError` stands for any
      `java.lang.Error`, the one kind of `Throwable` that `catch (Exception e)` does not catch. */
  datatype FaultClass = IllegalState | ClassCast | NullPointer | JavaError(name: string)

  /** A thrown object. `id` gives it an identity, so "the same exception is rethrown"
      can be told apart from "an equal-looking exception is thrown again". */
  datatype Fault = Fault(cls: FaultClass, id: int)

  predicate IsException(f: Fault) {
    !f.cls.JavaError?
  }

  datatype Outcome = Returned(value: Value) | Threw(fault: Fault)
}
