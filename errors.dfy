/** The exceptions the library throws, one constructor per thrown message. */
module Errors {

  datatype Error =
    // api.js
    | EventNotSupplied
    | SubscriberNotSupplied
    | MethodNameNotSupplied
    | MethodNameNotPresent
    | MethodNameNotAFunction
    /** The TypeError raised by `emit` when the table exists but holds no list for the event. */
    | UndefinedSubscriberList
    // connector.js
    | ConnectCommandsNotSupplied
    | MissingSubjectApiName
    | ApiNameEmpty
    | ApiNotSupplied
    | ApiNameNotSupplied
    // api1-connect-command.js
    | ApiRegistryNotSupplied

  /**
   * The text each error is thrown with. `UndefinedSubscriberList` is not
   * thrown by the library: it is the TypeError the JavaScript engine raises
   * when `emit` calls `forEach` on a missing list, and its text is the V8
   * wording, which other engines phrase differently.
   */
  function Message(e: Error): string {
    match e
    case EventNotSupplied => "event not supplied."
    case SubscriberNotSupplied => "subscriber not supplied."
    case MethodNameNotSupplied => "methodName not supplied."
    case MethodNameNotPresent => "methodName not present on subscriber."
    case MethodNameNotAFunction => "methodName not a function."
    case UndefinedSubscriberList => "Cannot read properties of undefined (reading 'forEach')"
    case ConnectCommandsNotSupplied => "connectCommands not supplied."
    case MissingSubjectApiName => "connectCommand missing subjectApiName."
    case ApiNameEmpty => "Required api.name property is empty."
    case ApiNotSupplied => "api not supplied."
    case ApiNameNotSupplied => "apiName not supplied."
    case ApiRegistryNotSupplied => "apiRegistry not supplied."
  }
}
