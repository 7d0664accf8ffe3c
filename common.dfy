/** Types shared by several components of the bus-tracking front end. */
module Common {

  /** A value that may be absent (`undefined` / `null` in the application). */
  datatype Option<+T> = None | Some(value: T)

  /** The three bus categories: the union type 'local' | 'district' | 'state'. */
  datatype BusType = Local | District | State
}
