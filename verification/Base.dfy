// Types shared by every module of the model.
module Base {

  datatype Option<+T> = None | Some(value: T)

  /** One call of `process_unchecked`. Calls are named by the order in which they run
      `try_acquire_front_fast`, so the first arrival is 0, the second is 1, and so on. */
  type Id = nat

  /** The value submitted with a call. The queue never looks inside it. */
  type Value = int
}
