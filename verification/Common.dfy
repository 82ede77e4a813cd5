/** Types that every component shares. */
module Common {

  /** A UUID. Generated identifiers are fresh; `NIL` stands for the zero UUID. */
  type Id = nat

  const NIL: Id := 0

  /** An instant or a duration, in nanoseconds. Stored timestamps are exact. */
  type Time = int

  datatype Option<+T> = None | Some(value: T)
}
