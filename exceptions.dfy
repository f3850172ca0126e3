/** The paginator's exception hierarchy, as values that operations return
    instead of raising. */
module Exceptions {

  /** `InvalidPage` is the base kind; each constructor is one of its two
      sub-kinds and carries the message the paginator raises it with. */
  datatype InvalidPage =
    | PageNotAnInteger(message: string)
    | EmptyPage(message: string)

  const NotAnIntegerMessage := "That page number is not an integer"
  const LessThanOneMessage := "That page number is less than 1"
  const NoResultsMessage := "That page contains no results"

  /** The outcome of an operation that may raise an `InvalidPage`. */
  datatype Result<T> = Ok(value: T) | Err(error: InvalidPage)
}
