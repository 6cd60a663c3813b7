/**
 * The logger: three severity slots (error, warning, info), each routed to
 * one of four sinks (standard error, standard output, null, file), and a
 * formatter that builds one line per call as prefix, timestamp, optional
 * "message: ", and the rendered value.
 *
 * The console and null sinks hold no state, so a slot is modelled by the
 * kind of sink it points at. The one file sink is created the first time a
 * slot is routed to a file, from the path configured at that moment, and
 * is shared by every slot routed to a file afterwards.
 */
module Logger {
  import opened Wrappers
  import opened LogSink

  /** The sink a slot can be routed to. */
  datatype SinkType = SinkCerr | SinkCout | SinkNull | SinkFile

  const ErrorPrefix: string := "[Err] "
  const WarningPrefix: string := "[Wrn] "
  const InfoPrefix: string := "[Inf] "

  /** The log file path of the process-wide logger. */
  const DefaultFileSinkPath: string := "rtb.log"

  /** The prefix of a line of the given severity. */
  function Prefix(messageType: MessageType): string
  {
    match messageType
    case Error => ErrorPrefix
    case Warning => WarningPrefix
    case Info => InfoPrefix
  }

  /**
   * The line a log call builds from the timestamp, an optional message and the
   * value already rendered as text.
   */
  function LogLine(messageType: MessageType, timestamp: string, message: Option<string>, value: string): string
  {
    Prefix(messageType) + timestamp + (if message.Some? then message.value + ": " else "") + value
  }

  /** The severity a line announces by its prefix, if any. */
  function SeverityOf(line: string): Option<MessageType>
  {
    if ErrorPrefix <= line then Some(Error)
    else if WarningPrefix <= line then Some(Warning)
    else if InfoPrefix <= line then Some(Info)
    else None
  }

  /** `part` occurs somewhere in `s`. */
  predicate Contains(s: string, part: string)
  {
    exists i | 0 <= i <= |s| :: part <= s[i..]
  }

  /**
   * A log line starts with its severity's prefix and then the timestamp, and
   * ends with the value, preceded by the message and ": " when there is one.
   */
  lemma LogLineLayout(messageType: MessageType, timestamp: string, message: Option<string>, value: string)
    ensures var line := LogLine(messageType, timestamp, message, value);
            var head := |Prefix(messageType)| + |timestamp|;
            && head <= |line|
            && line[..|Prefix(messageType)|] == Prefix(messageType)
            && line[|Prefix(messageType)|..head] == timestamp
            && line[head..] == (if message.Some? then message.value + ": " + value else value)
  {
    var line := LogLine(messageType, timestamp, message, value);
    var rest := if message.Some? then message.value + ": " + value else value;
    assert line == Prefix(messageType) + timestamp + rest;
  }

  /** The prefix tells the severity back: lines of different severities never share a prefix. */
  lemma SeverityOfLogLine(messageType: MessageType, timestamp: string, message: Option<string>, value: string)
    ensures SeverityOf(LogLine(messageType, timestamp, message, value)) == Some(messageType)
  {
    LogLineLayout(messageType, timestamp, message, value);
    var line := LogLine(messageType, timestamp, message, value);
    assert line[..6] == Prefix(messageType);
    assert Prefix(messageType) <= line;
    if messageType != Error { assert line[1] != 'E'; }
    if messageType == Info { assert line[1] != 'W'; }
  }

  /** A part of the left piece of a concatenation is a part of the whole. */
  lemma ContainsLeft(a: string, b: string, part: string)
    requires Contains(a, part)
    ensures Contains(a + b, part)
  {
    var i :| 0 <= i <= |a| && part <= a[i..];
    assert (a + b)[i..] == a[i..] + b;
  }

  /** A part of the right piece of a concatenation is a part of the whole. */
  lemma ContainsRight(a: string, b: string, part: string)
    requires Contains(b, part)
    ensures Contains(a + b, part)
  {
    var i :| 0 <= i <= |b| && part <= b[i..];
    assert (a + b)[|a| + i..] == b[i..];
  }

  /** A string contains each of its slices. */
  lemma ContainsSlice(s: string, i: nat, j: nat)
    requires i <= j <= |s|
    ensures Contains(s, s[i..j])
  {
    assert s[i..j] <= s[i..];
  }

  /** A string contains itself. */
  lemma ContainsSelf(s: string)
    ensures Contains(s, s)
  {
    assert s <= s[0..];
  }

  /** A log line names its severity ("Err", "Wrn" or "Inf"), the message when there is one, and the value. */
  lemma LogLineMentions(messageType: MessageType, timestamp: string, message: Option<string>, value: string)
    ensures var line := LogLine(messageType, timestamp, message, value);
            && Contains(line, Prefix(messageType)[1..4])
            && Contains(line, value)
            && (message.Some? ==> Contains(line, message.value))
  {
    var prefix := Prefix(messageType);
    var tag := prefix[1..4];
    var middle := if message.Some? then message.value + ": " else "";
    ContainsSlice(prefix, 1, 4);
    ContainsLeft(prefix, timestamp, tag);
    ContainsLeft(prefix + timestamp, middle, tag);
    ContainsLeft(prefix + timestamp + middle, value, tag);
    ContainsSelf(value);
    ContainsRight(prefix + timestamp + middle, value, value);
    if message.Some? {
      ContainsSelf(message.value);
      ContainsLeft(message.value, ": ", message.value);
      ContainsRight(prefix + timestamp, middle, message.value);
      ContainsLeft(prefix + timestamp + middle, value, message.value);
    }
  }

  /** What a console shows for a log line still names its severity, the message when there is one, and the value. */
  lemma ConsoleLineMentions(messageType: MessageType, timestamp: string, message: Option<string>, value: string)
    ensures var shown := Styled(LogLine(messageType, timestamp, message, value), messageType) + "\n";
            && Contains(shown, Prefix(messageType)[1..4])
            && Contains(shown, value)
            && (message.Some? ==> Contains(shown, message.value))
  {
    var line := LogLine(messageType, timestamp, message, value);
    var color := ColorOf(messageType);
    var close := (if messageType == Info then "" else TextColorReset) + "\n";
    assert Styled(line, messageType) + "\n" == color + line + close;
    LogLineMentions(messageType, timestamp, message, value);
    ContainsRight(color, line, Prefix(messageType)[1..4]);
    ContainsLeft(color + line, close, Prefix(messageType)[1..4]);
    ContainsRight(color, line, value);
    ContainsLeft(color + line, close, value);
    if message.Some? {
      ContainsRight(color, line, message.value);
      ContainsLeft(color + line, close, message.value);
    }
  }

  /**
   * Where one line goes: appended, styled, to standard error or standard
   * output; dropped by the null sink; appended verbatim to the open log file.
   */
  function Delivered(o: Output, sink: SinkType, fileOpen: bool, path: string, line: string, messageType: MessageType): Output
    requires fileOpen ==> path in o.files
  {
    match sink
    case SinkCerr => o.(stderr := o.stderr + Styled(line, messageType) + "\n")
    case SinkCout => o.(stdout := o.stdout + Styled(line, messageType) + "\n")
    case SinkNull => o
    case SinkFile => if fileOpen then o.(files := o.files[path := o.files[path] + line + "\n"]) else o
  }

  /**
   * A delivery touches one destination only, and what it adds there gives
   * the line back: unstyled from the console, verbatim from the file.
   */
  lemma DeliveredOnce(o: Output, sink: SinkType, fileOpen: bool, path: string, line: string, messageType: MessageType)
    requires fileOpen ==> path in o.files
    ensures var r := Delivered(o, sink, fileOpen, path, line, messageType);
            && (sink != SinkCerr ==> r.stderr == o.stderr)
            && (sink != SinkCout ==> r.stdout == o.stdout)
            && (sink != SinkFile || !fileOpen ==> r.files == o.files)
            && (sink == SinkCerr ==>
                  o.stderr <= r.stderr && Unstyled(r.stderr[|o.stderr|..|r.stderr| - 1], messageType) == Some(line))
            && (sink == SinkCout ==>
                  o.stdout <= r.stdout && Unstyled(r.stdout[|o.stdout|..|r.stdout| - 1], messageType) == Some(line))
            && (sink == SinkFile && fileOpen ==>
                  r.files.Keys == o.files.Keys && r.files[path] == o.files[path] + line + "\n")
  {
    var r := Delivered(o, sink, fileOpen, path, line, messageType);
    UnstyledStyled(line, messageType);
    if sink == SinkCerr {
      assert r.stderr[|o.stderr|..|r.stderr| - 1] == Styled(line, messageType);
    } else if sink == SinkCout {
      assert r.stdout[|o.stdout|..|r.stdout| - 1] == Styled(line, messageType);
    }
  }

  /** The logger: the routing of the three slots and the shared file sink. */
  class Logger {
    const streams: Streams
    var error: SinkType
    var warning: SinkType
    var info: SinkType
    var fileSink: LogSinkFile?
    var fileSinkPath: string

    /**
     * A slot routed to a file has a file sink to write to, and the file sink
     * writes to this logger's streams at the configured path.
     */
    ghost predicate Valid()
      reads this, fileSink, streams
    {
      && (error == SinkFile || warning == SinkFile || info == SinkFile ==> fileSink != null)
      && (fileSink != null ==> fileSink.streams == streams && fileSink.filepath == fileSinkPath && fileSink.Valid())
    }

    /** The sink the slot of this severity points at. */
    function Slot(messageType: MessageType): SinkType
      reads this
    {
      match messageType
      case Error => error
      case Warning => warning
      case Info => info
    }

    /** Errors and warnings to standard error, information to standard output, no file sink yet. */
    constructor (fileSinkPath: string, streams: Streams)
      ensures Valid() && this.streams == streams && this.fileSinkPath == fileSinkPath
      ensures error == SinkCerr && warning == SinkCerr && info == SinkCout && fileSink == null
    {
      this.streams := streams;
      error := SinkCerr;
      warning := SinkCerr;
      info := SinkCout;
      fileSink := null;
      this.fileSinkPath := fileSinkPath;
    }

    /** The process-wide logger, created with the default log file path. */
    static method GetInstance(streams: Streams) returns (logger: Logger)
      ensures fresh(logger) && logger.Valid() && logger.streams == streams
      ensures logger.fileSinkPath == DefaultFileSinkPath
      ensures logger.error == SinkCerr && logger.warning == SinkCerr && logger.info == SinkCout && logger.fileSink == null
    {
      logger := new Logger(DefaultFileSinkPath, streams);
    }

    /**
     * Points one slot at a sink. Routing to a file creates the file sink from
     * the current path if there is none and otherwise reuses it; the other
     * slots, the path and any existing file sink are left as they were.
     */
    method SetSink(sinkType: SinkType, slot: MessageType)
      requires Valid()
      modifies this, streams
      ensures Valid() && fileSinkPath == old(fileSinkPath)
      ensures error == (if slot == Error then sinkType else old(error))
      ensures warning == (if slot == Warning then sinkType else old(warning))
      ensures info == (if slot == Info then sinkType else old(info))
      ensures old(fileSink) != null ==> fileSink == old(fileSink)
      ensures if sinkType == SinkFile && old(fileSink) == null then
                && fresh(fileSink) && fileSink.filepath == fileSinkPath
                && (fileSink.isOpen <==> fileSinkPath in streams.writable)
                && streams.output == Opened(old(streams.output), streams.writable, fileSinkPath)
              else
                fileSink == old(fileSink) && streams.output == old(streams.output)
    {
      if sinkType == SinkFile && fileSink == null {
        fileSink := new LogSinkFile(fileSinkPath, streams);
      }
      match slot
      case Error => error := sinkType;
      case Warning => warning := sinkType;
      case Info => info := sinkType;
    }

    /** Routes the error slot; the other slots are unchanged. */
    method SetErrorSink(sinkType: SinkType)
      requires Valid()
      modifies this, streams
      ensures Valid() && fileSinkPath == old(fileSinkPath)
      ensures error == sinkType && warning == old(warning) && info == old(info)
      ensures old(fileSink) != null ==> fileSink == old(fileSink)
      ensures if sinkType == SinkFile && old(fileSink) == null then
                && fresh(fileSink) && fileSink.filepath == fileSinkPath
                && (fileSink.isOpen <==> fileSinkPath in streams.writable)
                && streams.output == Opened(old(streams.output), streams.writable, fileSinkPath)
              else
                fileSink == old(fileSink) && streams.output == old(streams.output)
    {
      SetSink(sinkType, Error);
    }

    /** Routes the warning slot; the other slots are unchanged. */
    method SetWarningSink(sinkType: SinkType)
      requires Valid()
      modifies this, streams
      ensures Valid() && fileSinkPath == old(fileSinkPath)
      ensures warning == sinkType && error == old(error) && info == old(info)
      ensures old(fileSink) != null ==> fileSink == old(fileSink)
      ensures if sinkType == SinkFile && old(fileSink) == null then
                && fresh(fileSink) && fileSink.filepath == fileSinkPath
                && (fileSink.isOpen <==> fileSinkPath in streams.writable)
                && streams.output == Opened(old(streams.output), streams.writable, fileSinkPath)
              else
                fileSink == old(fileSink) && streams.output == old(streams.output)
    {
      SetSink(sinkType, Warning);
    }

    /** Routes the info slot; the other slots are unchanged. */
    method SetInfoSink(sinkType: SinkType)
      requires Valid()
      modifies this, streams
      ensures Valid() && fileSinkPath == old(fileSinkPath)
      ensures info == sinkType && error == old(error) && warning == old(warning)
      ensures old(fileSink) != null ==> fileSink == old(fileSink)
      ensures if sinkType == SinkFile && old(fileSink) == null then
                && fresh(fileSink) && fileSink.filepath == fileSinkPath
                && (fileSink.isOpen <==> fileSinkPath in streams.writable)
                && streams.output == Opened(old(streams.output), streams.writable, fileSinkPath)
              else
                fileSink == old(fileSink) && streams.output == old(streams.output)
    {
      SetSink(sinkType, Info);
    }

    /**
     * Records the path and hands it to the file sink when there is one; a
     * file sink created later opens the recorded path.
     */
    method SetFileSinkPath(filepath: string)
      requires Valid()
      modifies this, streams, fileSink
      ensures Valid() && fileSinkPath == filepath && fileSink == old(fileSink)
      ensures error == old(error) && warning == old(warning) && info == old(info)
      ensures fileSink == null || filepath == old(fileSinkPath) ==> streams.output == old(streams.output)
      ensures fileSink != null && filepath == old(fileSinkPath) ==> fileSink.isOpen == old(fileSink.isOpen)
      ensures fileSink != null && filepath != old(fileSinkPath) ==>
                (fileSink.isOpen <==> filepath in streams.writable) &&
                streams.output == Opened(old(streams.output), streams.writable, filepath)
    {
      fileSinkPath := filepath;
      if fileSink != null {
        fileSink.SetFilePath(filepath);
      }
    }

    /**
     * Formats one line and hands it to the sink of its severity's slot; the
     * routing, the path and the file sink are left as they were.
     */
    method Log(messageType: MessageType, timestamp: string, message: Option<string>, value: string)
      requires Valid()
      modifies streams
      ensures Valid()
      ensures var fileOpen := fileSink != null && fileSink.isOpen;
              streams.output == Delivered(old(streams.output), Slot(messageType), fileOpen, fileSinkPath,
                                          LogLine(messageType, timestamp, message, value), messageType)
    {
      var line := LogLine(messageType, timestamp, message, value);
      match Slot(messageType)
      case SinkCerr => LogCerr(streams, line, messageType);
      case SinkCout => LogCout(streams, line, messageType);
      case SinkNull =>
      case SinkFile => fileSink.Log(line, messageType);
    }
  }

  /**
   * Switching the log file while errors go to the file leaves both files
   * behind, each holding the one line written while it was current.
   */
  method ChangeLogFileTwice(streams: Streams, path1: string, path2: string, timestamp1: string, timestamp2: string)
    requires path1 != path2
    requires path1 in streams.writable && path2 in streams.writable
    modifies streams
    ensures path1 in streams.output.files && path2 in streams.output.files
    ensures streams.output.files[path1] == LogLine(Error, timestamp1, None, "Error1") + "\n"
    ensures streams.output.files[path2] == LogLine(Error, timestamp2, None, "Error2") + "\n"
  {
    var logger := Logger.GetInstance(streams);
    logger.SetErrorSink(SinkCout);
    logger.SetFileSinkPath(path1);
    logger.SetErrorSink(SinkFile);
    logger.Log(Error, timestamp1, None, "Error1");
    logger.SetFileSinkPath(path2);
    logger.Log(Error, timestamp2, None, "Error2");
  }

  /** The two log files of the toolbox's own test are one instance. */
  method ChangeLogFileTwiceInTest(streams: Streams, timestamp1: string, timestamp2: string)
    requires "./log/test1.log" in streams.writable && "./log/test2.log" in streams.writable
    modifies streams
    ensures "./log/test1.log" in streams.output.files && "./log/test2.log" in streams.output.files
    ensures streams.output.files["./log/test1.log"] == LogLine(Error, timestamp1, None, "Error1") + "\n"
    ensures streams.output.files["./log/test2.log"] == LogLine(Error, timestamp2, None, "Error2") + "\n"
  {
    ChangeLogFileTwice(streams, "./log/test1.log", "./log/test2.log", timestamp1, timestamp2);
  }
}
