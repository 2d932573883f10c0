/** The process-wide diagnostics callback `SafeDecoder.logger`. */
module Diagnostics {
  import opened Errors

  /** The sequence of calls the library makes to `SafeDecoder.logger?(error, typeName)`,
      in the order it makes them. When no callback is installed the calls go nowhere. */
  class Logger {
    var calls: seq<LogEntry>

    constructor ()
      ensures calls == []
    {
      calls := [];
    }

    /** `SafeDecoder.logger?(error, typeName)` */
    method Log(error: Thrown, typeName: string)
      modifies this
      ensures calls == old(calls) + [LogEntry(error, typeName)]
    {
      calls := calls + [LogEntry(error, typeName)];
    }

    /** The calls made by a nested decode (a model's own `init(from:)`), in order. */
    method LogAll(entries: seq<LogEntry>)
      modifies this
      ensures calls == old(calls) + entries
    {
      calls := calls + entries;
    }
  }
}
