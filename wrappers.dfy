/** Optional values (Java's nullable references) and results carrying the
    exception a Java method would throw. */
module Wrappers {

  /** `None` stands for a Java `null`. */
  datatype Option<T> = None | Some(value: T) {
    predicate IsSome() { Some? }
    function GetOr(default: T): T { if Some? then value else default }
  }

  /** The Java exceptions the modelled code raises or lets escape. */
  datatype Exception =
    | IllegalArgument(msg: string)       // Validate.notNull and friends
    | NumberFormat(input: string)        // Integer.parseInt
    | IndexOutOfBounds(index: int)       // array or list access out of range
    | NoSuchElement                      // LinkedList.getFirst/getLast on an empty list
    | NullPointer(what: string)          // dereference of a null reference
    | ClassCast(what: string)            // a failing cast of a map value
    | UnknownEnum(name: string)          // Enum.valueOf on an unknown name
    | Configuration(msg: string)         // ConfigurationProcessingException, DandelionException
    | ExtensionLoading(msg: string)      // ExtensionLoadingException

  datatype Result<T> = Ok(value: T) | Err(error: Exception) {
    predicate IsOk() { Ok? }
  }
}
