/** The two SPL exceptions the wrapper and the extension throw, with their messages. */
module PhpExceptions {

  datatype Exception = BadMethodCall(message: string) | InvalidArgument(message: string)
}
