/**
  The logging backend (NLog) as the facade sees it: configured rule patterns,
  a per-name "enabled at level" predicate, oracles saying whether resolving a
  named logger or writing to it throws, and the writes made.
  None of NLog's own semantics is modelled.
 */
module NLogBackend {
  import opened Wrappers
  import opened Exceptions

  /** NLog's LogLevel; its ordinals run Trace = 0 .. Fatal = 5, Off = 6. */
  datatype LogLevel = Trace | Debug | Info | Warn | Error | Fatal | Off {
    function Ordinal(): nat {
      match this
      case Trace => 0
      case Debug => 1
      case Info => 2
      case Warn => 3
      case Error => 4
      case Fatal => 5
      case Off => 6
    }
  }

  /** Which backend logger a write went to: the generic (fallback) logger or a named one. */
  datatype Target = Generic | Named(name: string)

  /** One call of Logger.Log: target, level, text and the optional attached exception. */
  datatype Write = Write(target: Target, level: LogLevel, text: string, error: Option<Exn>)

  /** The backend configuration the facade consults. */
  datatype Backend = Backend(
    rules: seq<string>,                       // LoggerNamePattern of every configured rule, in order
    enabledAt: (string, LogLevel) -> bool,    // GetLogger(name).IsEnabled(level)
    lookupFails: string -> Option<Exn>,       // the exception GetLogger(name)/IsEnabled throws, if any
    writeFails: (string, LogLevel) -> Option<Exn>  // the exception Logger.Log(level, ...) throws, if any
  )

  /** The exception a named logger's resolution, level test and write throw
      for a message at `level`; the write is attempted only at an enabled level. */
  function Fault(b: Backend, name: string, level: LogLevel): (f: Option<Exn>)
    ensures b.lookupFails(name).Some? ==> f == b.lookupFails(name)
    ensures b.lookupFails(name).None? && !b.enabledAt(name, level) ==> f.None?
    ensures b.lookupFails(name).None? && b.enabledAt(name, level) ==> f == b.writeFails(name, level)
  {
    if b.lookupFails(name).Some? then b.lookupFails(name)
    else if b.enabledAt(name, level) then b.writeFails(name, level)
    else None
  }

  /** True iff some write in `ws` went to the generic logger. */
  predicate TouchesGeneric(ws: seq<Write>) {
    ws != [] && (ws[0].target.Generic? || TouchesGeneric(ws[1..]))
  }
}
