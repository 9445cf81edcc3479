/**
 * The .NET exceptions that the connector throws, catches or receives, as values.
 * Only the three properties the catch handlers read are kept: the exception's
 * type (its kind), its Message and its InnerException.
 */
module Exceptions {
  import opened Wrappers

  datatype ExceptionKind =
    | FileNotFound                        // System.IO.FileNotFoundException
    | FileExists                          // FileExistsException, declared in AzureFiles.cs
    | RequestFailed(errorCode: string)    // Azure.RequestFailedException, with its ErrorCode
    | FtpCommand(completionCode: string)  // FluentFTP's FtpCommandException, with the server's reply code
    | Application                         // System.ApplicationException
    | NotImplemented                      // System.NotImplementedException
    | Host                                // raised by the host's parameter utilities (code outside the connector)
    | Wrapped                             // System.AggregateException, thrown by Task.Result around a task's exception

  datatype Exn = Exn(kind: ExceptionKind, message: string, inner: Option<Exn>)

  /** Message of `new NotImplementedException()`. */
  const NotImplementedMessage := "The method or operation is not implemented."

  /** Base message of an AggregateException. */
  const AggregateBaseMessage := "One or more errors occurred."

  /** `new ApplicationException(message)`. */
  function ApplicationError(message: string): Exn {
    Exn(Application, message, None)
  }

  /** `new FileNotFoundException(message)`. */
  function FileNotFoundError(message: string): Exn {
    Exn(FileNotFound, message, None)
  }

  /**
   * The exception that `Task<T>.Result` throws for a task that failed with `e`:
   * an AggregateException whose InnerException is `e` and whose Message
   * (on .NET Core) appends the inner message in parentheses.
   */
  function Wrap(e: Exn): (w: Exn)
    ensures w.kind == Wrapped && w.inner == Some(e)
    ensures w.message == AggregateBaseMessage + " (" + e.message + ")"
  {
    Exn(Wrapped, AggregateBaseMessage + " (" + e.message + ")", Some(e))
  }
}
