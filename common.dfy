/** Small vocabulary shared by every part of the model. */
module Common {

  datatype Option<+T> = None | Some(value: T)

  /** The three risk levels the dashboard displays. */
  datatype Severity = High | Medium | Low {
    /** The string the source writes for the level. */
    function Name(): string {
      match this
      case High => "high"
      case Medium => "medium"
      case Low => "low"
    }
  }

  /** A value caught by a `catch` clause: an `Error` object, which carries a
      message, or anything else that was thrown. */
  datatype Thrown = ErrorValue(message: string) | NonErrorValue
}
