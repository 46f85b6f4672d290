/**
 * The parts of Python's standard `logging` package that the core relies on:
 * the numeric severity levels and a named, process-wide logging channel,
 * seen here only as the sequence of events emitted on it.
 */
module Logging {

  const NOTSET: int := 0
  const DEBUG: int := 10
  const INFO: int := 20
  const WARNING: int := 30
  const ERROR: int := 40
  const CRITICAL: int := 50

  /** One call such as `logger.error(msg)`: its level number and its rendered message. */
  datatype LogEvent = LogEvent(levelno: int, message: string)

  /**
   * A named logging channel (`logging.getLogger(name)`). Handlers, filters and
   * formatters attached to it are not part of this model; emitting an event
   * appends it to `events`.
   */
  class Logger {
    const name: string
    var events: seq<LogEvent>

    constructor (name: string)
      ensures this.name == name && events == []
    {
      this.name := name;
      events := [];
    }

    method Error(message: string)
      modifies this`events
      ensures events == old(events) + [LogEvent(ERROR, message)]
    {
      events := events + [LogEvent(ERROR, message)];
    }
  }
}
