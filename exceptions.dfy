/** The exceptions the bot raises or lets escape: its own three classes
    (`NotSendMessage`, `NotWrongHttpStatus`, `UnknownStatusHomework`) and the built-in
    ones its checks raise. Each carries the argument it was raised with. */
module Exceptions {

  datatype Error =
    | NotSendMessage(message: string)
    | NotWrongHttpStatus(message: string)
    | UnknownStatusHomework(message: string)
    | KeyErr(key: string)            // KeyError(key)
    | TypeErr(message: string)       // TypeError(message)
    | AttributeErr(message: string)  // AttributeError, e.g. `'list' object has no attribute 'get'`
    | JsonDecodeErr(message: string) // the body of a 200 reply is not JSON

  /** `str(error)`: the raised argument, except that `KeyError` shows its argument as
      `repr` does, between single quotes (every key the bot raises is free of quotes
      and backslashes, so no escaping arises). */
  function Str(e: Error): (s: string)
    ensures e.KeyErr? ==> |s| == |e.key| + 2 && s[0] == '\'' && s[|s| - 1] == '\'' && s[1..|s| - 1] == e.key
    ensures !e.KeyErr? ==> s == e.message
  {
    match e
    case KeyErr(key) => "'" + key + "'"
    case NotSendMessage(m) => m
    case NotWrongHttpStatus(m) => m
    case UnknownStatusHomework(m) => m
    case TypeErr(m) => m
    case AttributeErr(m) => m
    case JsonDecodeErr(m) => m
  }
}
