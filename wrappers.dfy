/** Option and Result values, and the runtime faults the source can raise. */
module Wrappers {

  /** A value that may be absent; stands for a C# reference that may be null. */
  datatype Option<T> = None | Some(value: T) {
    function GetOr(default: T): T {
      if Some? then value else default
    }
  }

  /** A computation that either yields a value or raises a runtime fault. */
  datatype Result<T, E> = Success(value: T) | Failure(error: E)

  /**
   * The .NET exceptions the modelled code can raise on unusual inputs.
   * Message() is the text the .NET runtime attaches to the exception. The last
   * two only ever propagate to the caller and never become a diagnostic, so no
   * contract reads their text: for InvalidCast it is the generic cast message,
   * not the BSON library's own text naming the two types, and for
   * UnsupportedAggregation it is the fixed prefix, without the aggregate type
   * name GroupByClause.cs:45 appends.
   */
  datatype Fault =
    | NullReference           // a member read through a null reference
    | NullArgument            // a LINQ operator applied to a null sequence
    | NoElements              // First() on an empty sequence
    | MoreThanOneMatch        // SingleOrDefault(predicate) with several matches
    | InvalidCast             // BsonValue.AsBsonDocument on a value that is not a document
    | UnsupportedAggregation  // the default branch of GroupByClause.ToString
  {
    function Message(): string {
      match this
      case NullReference => "Object reference not set to an instance of an object."
      case NullArgument => "Value cannot be null."
      case NoElements => "Sequence contains no elements"
      case MoreThanOneMatch => "Sequence contains more than one matching element"
      case InvalidCast => "Specified cast is not valid."
      case UnsupportedAggregation => "Unsupported aggregation type: "
    }
  }
}
