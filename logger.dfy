/**
 * `src/utils/logger.ts`: the logger keeps at most 1000 entries, pushing each new one and dropping the
 * oldest when over capacity. The timestamp is a parameter, and the `data` payload is an optional text.
 */
module Logging {
  import opened Wrappers
  import opened Bounded

  datatype LogLevel = Info | Warn | Error

  datatype LogEntry = LogEntry(timestamp: string, level: LogLevel, message: string, data: Option<string>)

  /** `maxLogs`. */
  const MAX_LOGS: nat := 1000

  class Logger {
    /** The private `logs` buffer. */
    var logs: seq<LogEntry>
    /** Every entry added since the logger was made or last cleared, oldest first. */
    ghost var history: seq<LogEntry>

    /** The buffer holds the last min(n, 1000) entries of the history, in order. */
    ghost predicate Valid()
      reads this
    {
      logs == LastN(history, MAX_LOGS)
    }

    constructor ()
      ensures Valid()
      ensures logs == [] && history == []
    {
      logs := [];
      history := [];
    }

    /** `addLog`: push the entry, then shift the oldest one out when over capacity. */
    method AddLog(level: LogLevel, message: string, data: Option<string>, now: string)
      requires Valid()
      modifies this
      ensures Valid()
      ensures history == old(history) + [LogEntry(now, level, message, data)]
      ensures logs == Push(old(logs), LogEntry(now, level, message, data), MAX_LOGS)
      ensures |logs| <= MAX_LOGS && logs[|logs| - 1] == LogEntry(now, level, message, data)
      ensures |old(logs)| < MAX_LOGS ==> logs == old(logs) + [LogEntry(now, level, message, data)]
      ensures |old(logs)| == MAX_LOGS ==> logs == old(logs)[1..] + [LogEntry(now, level, message, data)]
    {
      var entry := LogEntry(now, level, message, data);
      PushWithinCap(logs, entry, MAX_LOGS);
      PushKeepsLast(history, entry, MAX_LOGS);
      logs := logs + [entry];
      if |logs| > MAX_LOGS {
        logs := logs[1..];
      }
      history := history + [entry];
    }

    /** `info`. */
    method LogInfo(message: string, data: Option<string>, now: string)
      requires Valid()
      modifies this
      ensures Valid()
      ensures history == old(history) + [LogEntry(now, Info, message, data)]
      ensures logs == Push(old(logs), LogEntry(now, Info, message, data), MAX_LOGS)
    {
      AddLog(Info, message, data, now);
    }

    /** `warn`. */
    method LogWarn(message: string, data: Option<string>, now: string)
      requires Valid()
      modifies this
      ensures Valid()
      ensures history == old(history) + [LogEntry(now, Warn, message, data)]
      ensures logs == Push(old(logs), LogEntry(now, Warn, message, data), MAX_LOGS)
    {
      AddLog(Warn, message, data, now);
    }

    /** `error`. */
    method LogError(message: string, data: Option<string>, now: string)
      requires Valid()
      modifies this
      ensures Valid()
      ensures history == old(history) + [LogEntry(now, Error, message, data)]
      ensures logs == Push(old(logs), LogEntry(now, Error, message, data), MAX_LOGS)
    {
      AddLog(Error, message, data, now);
    }

    /** `getLogs`: `[...this.logs]`, a new array holding the buffer. The copy is shallow, so the
      * source shares the entry objects; entries are values here. */
    method GetLogs() returns (copy: array<LogEntry>)
      ensures fresh(copy)
      ensures copy[..] == logs
    {
      copy := new LogEntry[|logs|](i requires 0 <= i < |logs| reads this => logs[i]);
    }

    /** `clearLogs`: the buffer and the history start over. */
    method ClearLogs()
      modifies this
      ensures Valid()
      ensures logs == [] && history == []
    {
      logs := [];
      history := [];
    }
  }
}
