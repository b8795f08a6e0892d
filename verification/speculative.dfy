/** The failure policy of the speculative `audio.Connect()` attempt: which
    bluez error names mean "keep polling" and which are fatal. */
module Speculative {
  import opened Trace

  const AlreadyConnected: string := "org.bluez.Error.AlreadyConnected"
  const InProgress: string := "org.bluez.Error.InProgress"
  const ConnectFailed: string := "org.bluez.Error.Failed"

  /** How one tick's DBus calls end, supplied from outside the model: the
      device lookup before the `try` fails, or `audio.Connect()` succeeds or
      fails with a DBus error name. */
  datatype ConnectAttempt = LookupFailed(name: string) | Connected | DBusError(name: string)

  /** One speculative connect attempt as `speculative_connect` handles it:
      True (so gobject keeps the timer) when Connect succeeds or fails with
      one of the three known bluez errors, which are only logged; any other
      DBus error falls to the bare `raise` and is re-raised. A failed device
      lookup happens outside the `try` and propagates whatever its name. */
  function SpeculativeConnect(attempt: ConnectAttempt): (r: Result<bool>)
    ensures r.Ok? <==> attempt.Connected? || (attempt.DBusError? && attempt.name in {AlreadyConnected, InProgress, ConnectFailed})
    ensures r.Ok? ==> r.value
    ensures r.Err? ==> r.exc == DBusException(attempt.name)
  {
    match attempt
    case LookupFailed(name) => Err(DBusException(name))
    case Connected => Ok(true)
    case DBusError(name) =>
      if name == AlreadyConnected then Ok(true)
      else if name == InProgress then Ok(true)
      else if name == ConnectFailed then Ok(true)
      else Err(DBusException(name))
  }
}
