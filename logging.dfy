/**
 * The structured logger (`logger.info(message, meta)`, `logger.error(message, meta)`),
 * kept as the sequence of events it has been asked to record. Where those
 * events are written (files, console) is not part of the model.
 */
module Logging {

  datatype LogEvent =
    | Info(message: string, userId: nat)
    | Error(message: string, error: string)

  class Logger {
    var events: seq<LogEvent>

    constructor ()
      ensures events == []
    {
      events := [];
    }

    method LogInfo(message: string, userId: nat)
      modifies this
      ensures events == old(events) + [Info(message, userId)]
    {
      events := events + [Info(message, userId)];
    }

    method LogError(message: string, error: string)
      modifies this
      ensures events == old(events) + [Error(message, error)]
    {
      events := events + [Error(message, error)];
    }
  }
}
