/** The kinds of exception the transfer subsystem raises or lets through. */
module Errors {

  datatype Error =
    /** Ruby's ArgumentError, raised on a missing or malformed argument. */
    | ArgumentError(message: string)
    /** Ruby's RuntimeError, raised when a post-condition check on the session fails. */
    | RuntimeError(message: string)
    /** Ruby's TypeError, raised when a user, or a password other than nil, is not a string. */
    | TypeError
    /** Net::FTPReplyError: the server asked for a password and none was given. */
    | FtpReplyError
    /** Net::FTPConnectionError: the connection was never opened. */
    | FtpConnectionError
    /** Ruby's IOError: a command was written to a connection that `close` has shut. */
    | IOError
    /** Errno::EPIPE: the peer has reset the connection. */
    | BrokenPipe
    /** Net::FTPPermError: the server answered with a permanent (5xx) reply. */
    | FtpPermError(code: nat)
    /** The transfer host could not be reached when opening the connection. */
    | ConnectFailed

  /** The message Ruby gives an ArgumentError raised without one. */
  const DEFAULT_ARGUMENT_MESSAGE := "ArgumentError"

  /** The reply code of a command sent before the session has authenticated. */
  const NOT_LOGGED_IN := 530

  /** The reply code for a file or directory that does not exist. */
  const FILE_UNAVAILABLE := 550
}
