/** The ways a host-side call can end without a value.  Each constructor
    stands for one kind of Python exception the driver lets escape. */
module Outcomes {

  datatype Fault =
    | CommunicationError   // a short read in __getByte__/__getInt__: the driver calls sys.exit(1)
    | MissingAck           // an empty acknowledge read: ord('') raises TypeError
    | ZeroDivision         // a float division by zero
    | IndexOutOfRange      // a list or array index past the end (gain tables, short buffers)
    | UnknownChannel       // a channel name missing from a lookup list (ValueError / KeyError)
    | UndefinedName        // a name the module never defines (NameError)
    | InvalidByte          // chr() of a value outside 0..255 (ValueError)
    | NegativeShift        // a shift by a negative count (ValueError)
    | QueuedAck            // the value of an acknowledgement that burst mode only queued is inspected

  /** A failure-compatible result, usable with `:-`. */
  datatype Result<+T> = Ok(value: T) | Err(fault: Fault) {
    predicate IsFailure() { Err? }

    function PropagateFailure<U>(): Result<U>
      requires Err?
    {
      Err(fault)
    }

    function Extract(): T
      requires Ok?
    {
      value
    }
  }

  datatype Option<+T> = None | Some(value: T)
}
