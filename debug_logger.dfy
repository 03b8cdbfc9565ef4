/**
  The in-app debug log: every console call is recorded as an entry at the
  front of a module-level buffer that keeps at most `MaxLogs` entries.

  Patching the console, notifying the listeners of the page, exporting and
  the clock and random number behind entry ids are not part of this model:
  an entry's id and timestamp are parameters, and each argument comes with
  the text the console call would show for it.
*/
module DebugLogger {

  /** The buffer's capacity. */
  const MaxLogs: nat := 500

  datatype Level = Log | Info | Warn | Error
  {
    /** The wire spelling of the level. */
    function Name(): string
    {
      match this
      case Log => "log"
      case Info => "info"
      case Warn => "warn"
      case Error => "error"
    }
  }

  /**
    One console argument: an object, with its `JSON.stringify` text, or any
    other value, with its `String` text.
  */
  datatype Arg = Object(json: string) | Plain(text: string)
  {
    /** How the argument reads in the message. */
    function Shown(): string
    {
      match this
      case Object(json) => json
      case Plain(text) => text
    }
  }

  /** The `data` of an entry: the sole object argument, or the whole argument list. */
  datatype LogData = Single(arg: Arg) | All(args: seq<Arg>)

  datatype LogEntry = LogEntry(id: string, timestamp: int, level: Level, message: string, data: LogData)

  /** `parts.join(sep)`. */
  function Join(parts: seq<string>, sep: string): string
  {
    if parts == [] then ""
    else if |parts| == 1 then parts[0]
    else Join(parts[..|parts| - 1], sep) + sep + parts[|parts| - 1]
  }

  /** Total length of a list of strings. */
  function TotalLength(parts: seq<string>): nat
  {
    if parts == [] then 0 else TotalLength(parts[..|parts| - 1]) + |parts[|parts| - 1]|
  }

  /** A join holds every part once and one separator between each two. */
  lemma {:induction false} JoinLength(parts: seq<string>, sep: string)
    requires parts != []
    ensures |Join(parts, sep)| == TotalLength(parts) + (|parts| - 1) * |sep|
  {
    if |parts| > 1 {
      var init := parts[..|parts| - 1];
      JoinLength(init, sep);
      assert (|parts| - 1) * |sep| == (|init| - 1) * |sep| + |sep|;
    } else {
      assert parts[..0] == [];
    }
  }

  /** Joining a list and one more part puts exactly the separator between them, and the part ends the join. */
  lemma JoinSnoc(parts: seq<string>, last: string, sep: string)
    requires parts != []
    ensures Join(parts + [last], sep) == Join(parts, sep) + sep + last
  {
    assert (parts + [last])[..|parts|] == parts;
  }

  /** The shown text of each argument, in order. */
  function Shown(args: seq<Arg>): (texts: seq<string>)
    ensures |texts| == |args|
    ensures forall k :: 0 <= k < |args| ==> texts[k] == args[k].Shown()
  {
    if args == [] then [] else Shown(args[..|args| - 1]) + [args[|args| - 1].Shown()]
  }

  /** An entry's message: the arguments' texts joined by single spaces. */
  function Message(args: seq<Arg>): string
  {
    Join(Shown(args), " ")
  }

  /** An entry's data: the argument itself when it is one object, otherwise all the arguments. */
  function Data(args: seq<Arg>): (data: LogData)
    ensures data.Single? <==> |args| == 1 && args[0].Object?
    ensures data.Single? ==> data.arg == args[0]
    ensures data.All? ==> data.args == args
  {
    if |args| == 1 && args[0].Object? then Single(args[0]) else All(args)
  }

  /** The entry `addLog` records. */
  function MakeEntry(id: string, timestamp: int, level: Level, args: seq<Arg>): LogEntry
  {
    LogEntry(id, timestamp, level, Message(args), Data(args))
  }

  /** `[entry, ...logs].slice(0, MaxLogs)`. */
  function Prepend(entry: LogEntry, logs: seq<LogEntry>): (r: seq<LogEntry>)
  {
    var grown := [entry] + logs;
    if |grown| <= MaxLogs then grown else grown[..MaxLogs]
  }

  /** The new entry comes first and the buffer never exceeds its capacity. */
  lemma PrependNewestFirst(entry: LogEntry, logs: seq<LogEntry>)
    ensures Prepend(entry, logs) != [] && Prepend(entry, logs)[0] == entry
    ensures |Prepend(entry, logs)| <= MaxLogs
  {
  }

  /** Below capacity the buffer grows by one and keeps every old entry, shifted by one. */
  lemma PrependBelowCap(entry: LogEntry, logs: seq<LogEntry>)
    requires |logs| < MaxLogs
    ensures |Prepend(entry, logs)| == |logs| + 1
    ensures Prepend(entry, logs)[1..] == logs
  {
  }

  /** At capacity the oldest (last) entry is dropped and the rest keep their order. */
  lemma PrependAtCap(entry: LogEntry, logs: seq<LogEntry>)
    requires |logs| == MaxLogs
    ensures |Prepend(entry, logs)| == MaxLogs
    ensures Prepend(entry, logs)[1..] == logs[..MaxLogs - 1]
  {
  }

  /** The module-level buffer of entries, newest first. */
  class DebugLog {
    var entries: seq<LogEntry>

    predicate Valid()
      reads this
    {
      |entries| <= MaxLogs
    }

    constructor ()
      ensures Valid() && entries == []
    {
      entries := [];
    }

    /** `addLog`: record a console call at the front of the buffer. */
    method AddLog(level: Level, args: seq<Arg>, id: string, timestamp: int)
      requires Valid()
      modifies this
      ensures Valid()
      ensures entries == Prepend(MakeEntry(id, timestamp, level, args), old(entries))
    {
      var entry := LogEntry(id, timestamp, level, Message(args), Data(args));
      entries := Prepend(entry, entries);
    }

    /** `clearLogs`: empty the buffer. */
    method ClearLogs()
      modifies this
      ensures Valid() && entries == []
    {
      entries := [];
    }
  }
}
