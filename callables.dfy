/**
 * What the wrappers call. The library never looks inside a callable: it only
 * forwards arguments and passes back the result. A callable's behaviour is
 * therefore a value of arrow type, arbitrary and unknown to every proof.
 */
module Callables {

  /** Arguments, results and the state of objects in memory. */
  type Value = int

  /** A plain function: the value it returns for the given arguments. */
  type Fun = seq<Value> -> Value

  /** One call of a stateful callable: its result and the state of the
      object it ran on, afterwards. */
  datatype Step = Step(result: Value, after: Value)

  /** Code that runs on an object: a call operator of a class type, a member
      function, or a constant callable that takes the object as its first
      argument. Given the object's state and the arguments, what the call does. */
  type Method = (Value, seq<Value>) -> Step

  /** Code that takes a function as its first argument: given the function
      and the remaining arguments, the value it returns. */
  type FunctionCall = (Fun, seq<Value>) -> Value
}
