/**
 * Log sinks: the places a formatted log line can go.
 *
 * The console sinks write one line to standard output or standard error,
 * wrapping error lines in red and warning lines in yellow (SGR escape
 * sequences, section 8.3.117 of ECMA-48: "0;31", "0;33", reset "0"). The
 * null sink discards every line. The file sink owns one output stream and
 * the path it was opened at: it reopens only when the path changes, an open
 * truncates the file, and a failed open is reported on standard error.
 *
 * The process's streams and file system are modelled by the class Streams;
 * which paths can be opened for writing is a property of the environment,
 * given as the set `writable`.
 */
module LogSink {
  import opened Wrappers

  /** The kind of message a sink is handed, which picks the console colour. */
  datatype MessageType = Error | Warning | Info

  const TextColorRed: string := "\U{1B}[0;31m"
  const TextColorYellow: string := "\U{1B}[0;33m"
  const TextColorReset: string := "\U{1B}[0m"

  /** Everything written so far: standard output, standard error, and the contents of each file. */
  datatype Output = Output(stdout: string, stderr: string, files: map<string, string>)

  /** The colour escape a console sink puts before a message of this type. */
  function ColorOf(messageType: MessageType): string
  {
    match messageType
    case Error => TextColorRed
    case Warning => TextColorYellow
    case Info => ""
  }

  /** A console line as written: error and warning messages wrapped in their colour and a reset. */
  function Styled(message: string, messageType: MessageType): string
  {
    if messageType == Info then message else ColorOf(messageType) + message + TextColorReset
  }

  /** Recovers the message from a console line of the given type, or None when the colours are missing. */
  function Unstyled(line: string, messageType: MessageType): Option<string>
  {
    if messageType == Info then Some(line)
    else
      var color := ColorOf(messageType);
      if |line| >= |color| + |TextColorReset| && line[..|color|] == color
         && line[|line| - |TextColorReset|..] == TextColorReset
      then Some(line[|color|..|line| - |TextColorReset|])
      else None
  }

  /** Styling loses nothing: the message comes back out of every console line. */
  lemma UnstyledStyled(message: string, messageType: MessageType)
    ensures Unstyled(Styled(message, messageType), messageType) == Some(message)
  {
    if messageType != Info {
      var line := Styled(message, messageType);
      var color := ColorOf(messageType);
      assert line[..|color|] == color;
      assert line[|line| - |TextColorReset|..] == TextColorReset;
      assert line[|color|..|line| - |TextColorReset|] == message;
    }
  }

  /** On the console an error line and a warning line never look alike, whatever they say. */
  lemma ErrorAndWarningDiffer(m1: string, m2: string)
    ensures Styled(m1, Error) != Styled(m2, Warning)
  {
    assert Styled(m1, Error)[5] == '1';
    assert Styled(m2, Warning)[5] == '3';
  }

  /** What a failed open prints on standard error. */
  function OpenErrorLine(path: string): string
  {
    "Error opening log file " + path + "\n"
  }

  /**
   * Opening `path` for output: a writable path is created or truncated to
   * empty; any other path leaves the files alone and adds the error line to
   * standard error. Standard output and every other file are unchanged.
   */
  function Opened(o: Output, writable: set<string>, path: string): (r: Output)
    ensures r.stdout == o.stdout
    ensures o.files.Keys <= r.files.Keys
    ensures forall p | p in o.files && p != path :: r.files[p] == o.files[p]
    ensures path in writable ==> path in r.files && r.files[path] == "" && r.stderr == o.stderr
    ensures path !in writable ==> r.files == o.files && r.stderr == o.stderr + OpenErrorLine(path)
  {
    if path in writable then o.(files := o.files[path := ""])
    else o.(stderr := o.stderr + OpenErrorLine(path))
  }

  /** The process's standard streams and file system. */
  class Streams {
    var output: Output
    /** The paths at which a file can be opened for writing. */
    const writable: set<string>

    /** Nothing written yet, no files. */
    constructor (writable: set<string>)
      ensures output == Output("", "", map[]) && this.writable == writable
    {
      output := Output("", "", map[]);
      this.writable := writable;
    }
  }

  /** LogSinkCout: appends the styled line and a newline to standard output. */
  method LogCout(streams: Streams, message: string, messageType: MessageType)
    modifies streams
    ensures streams.output.stdout == old(streams.output.stdout) + Styled(message, messageType) + "\n"
    ensures streams.output.stderr == old(streams.output.stderr) && streams.output.files == old(streams.output.files)
  {
    streams.output := streams.output.(stdout := streams.output.stdout + Styled(message, messageType) + "\n");
  }

  /** LogSinkCerr: appends the styled line and a newline to standard error. */
  method LogCerr(streams: Streams, message: string, messageType: MessageType)
    modifies streams
    ensures streams.output.stderr == old(streams.output.stderr) + Styled(message, messageType) + "\n"
    ensures streams.output.stdout == old(streams.output.stdout) && streams.output.files == old(streams.output.files)
  {
    streams.output := streams.output.(stderr := streams.output.stderr + Styled(message, messageType) + "\n");
  }

  /** The file sink: one output stream and the path it belongs to. */
  class LogSinkFile {
    const streams: Streams
    var filepath: string
    /** Whether the stream is open and good, so that writes reach the file. */
    var isOpen: bool

    /** An open stream belongs to a file that exists. */
    ghost predicate Valid()
      reads this, streams
    {
      isOpen ==> filepath in streams.output.files
    }

    /** Stores the path and opens it at once. */
    constructor (filepath: string, streams: Streams)
      modifies streams
      ensures Valid() && this.filepath == filepath && this.streams == streams
      ensures isOpen <==> filepath in streams.writable
      ensures streams.output == Opened(old(streams.output), streams.writable, filepath)
    {
      this.streams := streams;
      this.filepath := filepath;
      isOpen := false;
      new;
      OpenLogFile();
    }

    /** Closes any open stream, then opens the current path for output. */
    method OpenLogFile()
      modifies this, streams
      ensures Valid() && filepath == old(filepath)
      ensures isOpen <==> filepath in streams.writable
      ensures streams.output == Opened(old(streams.output), streams.writable, filepath)
    {
      if isOpen {
        isOpen := false;
      }
      streams.output := Opened(streams.output, streams.writable, filepath);
      isOpen := filepath in streams.writable;
    }

    /** Appends the line and a newline to the open file; a closed stream swallows it. */
    method Log(message: string, messageType: MessageType)
      requires Valid()
      modifies streams
      ensures Valid()
      ensures isOpen ==> streams.output == old(streams.output).(files := old(streams.output.files)[filepath := old(streams.output.files[filepath]) + message + "\n"])
      ensures !isOpen ==> streams.output == old(streams.output)
    {
      if isOpen {
        streams.output := streams.output.(files := streams.output.files[filepath := streams.output.files[filepath] + message + "\n"]);
      }
    }

    /** A new path is stored and opened; the current path changes nothing. */
    method SetFilePath(filepath: string)
      requires Valid()
      modifies this, streams
      ensures Valid() && this.filepath == filepath
      ensures filepath == old(this.filepath) ==> isOpen == old(isOpen) && streams.output == old(streams.output)
      ensures filepath != old(this.filepath) ==>
                (isOpen <==> filepath in streams.writable) &&
                streams.output == Opened(old(streams.output), streams.writable, filepath)
    {
      if filepath != this.filepath {
        this.filepath := filepath;
        OpenLogFile();
      }
    }

    /** The destructor: closes the stream if it is open. */
    method Close()
      modifies this
      ensures !isOpen && filepath == old(filepath)
    {
      if isOpen {
        isOpen := false;
      }
    }
  }
}
