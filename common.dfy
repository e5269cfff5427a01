/** Values shared by the store models: optional values and the outcome of a
    call to the remote data store, which the stores receive as inputs. */
module Common {

  /** JavaScript's `null`/`undefined` versus a present value. */
  datatype Option<+T> = None | Some(value: T)

  /** What one awaited row query produced: the rows (`{ data }` with no
      `error`), a reported error (`{ error }`), or an exception thrown while
      awaiting it (the `catch` branch). */
  datatype Query<T> = Ok(rows: seq<T>) | Err | Throw

  /** The same for a write (insert or update), which returns no rows. */
  datatype Status = Done | Failed | Threw
}
