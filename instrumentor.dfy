/**
 * The trace-event session writer.
 *
 * A session opens a file and writes the header of a trace-event JSON
 * document; every profile record is written as one JSON object, preceded by
 * a comma unless it is the first since the counter was last reset; ending
 * the session writes the footer, closes the file and resets the counter.
 * Double quotes in a profile's name are turned into single quotes so that
 * the name cannot end its JSON string early.
 *
 * The output stream is modelled with the state of a C++ output file stream
 * that matters here: whether it is attached to a file and whether it is
 * still good. Writes reach the file only while both hold.
 */
module Instrumentor {
  import opened Wrappers
  import opened LogSink

  /** One timed scope: its name, start and end in microseconds, and the thread it ran on. */
  datatype ProfileResult = ProfileResult(name: string, start: int, end: int, threadId: nat)

  const Header: string := "{\"otherData\": {},\"traceEvents\":["
  const Footer: string := "]}"

  /** The file a session writes to when none is given. */
  const DefaultFilePath: string := "instrumentor.json"

  // ------------------------------------------------------------------
  // Decimal rendering of integers, as the stream's insertion operator writes them
  // ------------------------------------------------------------------

  predicate IsDigit(c: char) { '0' as int <= c as int <= '9' as int }

  function DigitChar(d: nat): (c: char)
    requires d < 10
    ensures IsDigit(c) && c as int - '0' as int == d
  {
    (d + '0' as int) as char
  }

  /** The decimal digits of n, most significant first, with no leading zero. */
  function NatString(n: nat): (s: string)
    ensures |s| >= 1 && forall i | 0 <= i < |s| :: IsDigit(s[i])
    ensures n > 0 ==> s[0] != '0'
  {
    if n < 10 then [DigitChar(n)] else NatString(n / 10) + [DigitChar(n % 10)]
  }

  /** n in decimal, with a leading minus sign when negative. */
  function DecimalString(n: int): (s: string)
    ensures |s| >= 1 && (s[0] == '-' <==> n < 0)
    ensures forall i | 1 <= i < |s| :: IsDigit(s[i])
  {
    if n < 0 then "-" + NatString(-n) else NatString(n)
  }

  /** The value of a string of decimal digits. */
  function NatValue(s: string): nat
    requires forall i | 0 <= i < |s| :: IsDigit(s[i])
  {
    if s == [] then 0
    else
      var last := s[|s| - 1];
      assert IsDigit(last);
      NatValue(s[..|s| - 1]) * 10 + (last as int - '0' as int)
  }

  /** The value of an optionally signed decimal numeral. */
  function DecimalValue(s: string): int
    requires |s| >= 1
    requires forall i | 0 <= i < |s| :: IsDigit(s[i]) || (i == 0 && s[i] == '-')
  {
    if s[0] == '-' then 0 - NatValue(s[1..]) else NatValue(s)
  }

  lemma {:induction false} NatStringRoundTrip(n: nat)
    ensures NatValue(NatString(n)) == n
  {
    if n >= 10 {
      NatStringRoundTrip(n / 10);
      var s := NatString(n);
      assert s[..|s| - 1] == NatString(n / 10);
    }
  }

  /** Reading back what was written gives the number: the rendering loses nothing. */
  lemma DecimalRoundTrip(n: int)
    ensures var s := DecimalString(n);
            (forall i | 0 <= i < |s| :: IsDigit(s[i]) || (i == 0 && s[i] == '-')) && DecimalValue(s) == n
  {
    var s := DecimalString(n);
    if n < 0 {
      var digits := NatString(-n);
      NatStringRoundTrip(-n);
      assert s == "-" + digits;
      assert s[1..] == digits;
      forall i | 0 <= i < |s| ensures IsDigit(s[i]) || (i == 0 && s[i] == '-') {
        if i > 0 { assert s[i] == digits[i - 1]; }
      }
    } else {
      NatStringRoundTrip(n);
      assert !IsDigit('-');
    }
  }

  // ------------------------------------------------------------------
  // Records
  // ------------------------------------------------------------------

  /** The name with every double quote replaced by a single quote. */
  function Sanitized(name: string): (r: string)
    ensures |r| == |name|
    ensures forall i | 0 <= i < |r| :: r[i] == (if name[i] == '"' then '\'' else name[i])
  {
    if name == [] then []
    else [if name[0] == '"' then '\'' else name[0]] + Sanitized(name[1..])
  }

  /** A sanitized name holds no double quote, so it cannot close its JSON string. */
  lemma SanitizedHasNoQuote(name: string)
    ensures '"' !in Sanitized(name)
  {
    var r := Sanitized(name);
    assert forall i | 0 <= i < |r| :: r[i] != '"';
  }

  /** Sanitizing twice is sanitizing once, and a name without double quotes is kept as it is. */
  lemma SanitizedIdempotent(name: string)
    ensures Sanitized(Sanitized(name)) == Sanitized(name)
    ensures '"' !in name ==> Sanitized(name) == name
  {
    var r := Sanitized(name);
    assert Sanitized(r) == r by {
      SanitizedHasNoQuote(name);
      assert forall i | 0 <= i < |r| :: r[i] != '"';
    }
    if '"' !in name {
      assert forall i | 0 <= i < |name| :: name[i] != '"';
      assert r == name;
    }
  }

  /** The text before the name in a record: category, duration, and the name's opening quote. */
  function RecordHead(result: ProfileResult): string
  {
    "{\"cat\":\"function\",\"dur\":" + DecimalString(result.end - result.start) + ",\"name\":\""
  }

  /** The text after the name in a record: the closing quote, phase, process, thread and start time. */
  function RecordTail(result: ProfileResult): string
  {
    "\",\"ph\":\"X\",\"pid\":0,\"tid\":" + DecimalString(result.threadId) + ",\"ts\":" + DecimalString(result.start) + "}"
  }

  /** The JSON object written for one profile, fields in a fixed order. */
  function Record(result: ProfileResult): string
  {
    RecordHead(result) + Sanitized(result.name) + RecordTail(result)
  }

  /**
   * A record is one JSON object, and its name field holds the sanitized
   * name, which ends at the first double quote after the head.
   */
  lemma RecordLayout(result: ProfileResult)
    ensures var rec := Record(result);
            var head := RecordHead(result);
            var name := Sanitized(result.name);
            && |head| + |name| < |rec|
            && rec[..|head|] == head
            && rec[|head|..|head| + |name|] == name
            && rec[|head| + |name|] == '"'
            && '"' !in name
            && rec[0] == '{' && rec[|rec| - 1] == '}'
  {
    var head := RecordHead(result);
    var name := Sanitized(result.name);
    var tail := RecordTail(result);
    var rec := Record(result);
    assert rec[..|head|] == head;
    assert rec[|head|..|head| + |name|] == name;
    assert rec[|head| + |name|] == tail[0] == '"';
    assert rec[0] == head[0] == '{';
    assert rec[|rec| - 1] == tail[|tail| - 1] == '}';
    SanitizedHasNoQuote(result.name);
  }

  /** Records separated by commas. */
  function Joined(records: seq<string>): string
  {
    if records == [] then ""
    else if |records| == 1 then records[0]
    else Joined(records[..|records| - 1]) + "," + records[|records| - 1]
  }

  /** The records written for a list of profiles, one per profile and in order. */
  function Records(results: seq<ProfileResult>): (rs: seq<string>)
    ensures |rs| == |results|
  {
    if results == [] then []
    else Records(results[..|results| - 1]) + [Record(results[|results| - 1])]
  }

  lemma RecordsPrefix(results: seq<ProfileResult>, i: nat)
    requires i < |results|
    ensures Records(results[..i + 1]) == Records(results[..i]) + [Record(results[i])]
  {
    assert results[..i + 1][..i] == results[..i];
  }

  /** Appending a record adds a comma exactly when it is not the first. */
  lemma JoinedSnoc(records: seq<string>, r: string)
    ensures Joined(records + [r]) == Joined(records) + (if records == [] then "" else ",") + r
  {
    var all := records + [r];
    if records != [] {
      assert all[..|all| - 1] == records;
    }
  }

  /** The records of one more profile: the text so far, a comma unless it is the first, and the new record. */
  lemma JoinedRecordsStep(results: seq<ProfileResult>, i: nat)
    requires i < |results|
    ensures Joined(Records(results[..i + 1])) ==
            Joined(Records(results[..i])) + (if i == 0 then "" else ",") + Record(results[i])
  {
    RecordsPrefix(results, i);
    JoinedSnoc(Records(results[..i]), Record(results[i]));
  }

  /** What a session's file holds after the header and the first i records. */
  function SessionPrefix(results: seq<ProfileResult>, i: nat): string
    requires i <= |results|
  {
    Header + Joined(Records(results[..i]))
  }

  /** Writing record i extends the session's file by a comma unless it is the first, then the record. */
  lemma SessionPrefixStep(results: seq<ProfileResult>, i: nat)
    requires i < |results|
    ensures SessionPrefix(results, i + 1) == SessionPrefix(results, i) + (if i == 0 then "" else ",") + Record(results[i])
  {
    JoinedRecordsStep(results, i);
    Regrouped(Header, Joined(Records(results[..i])), if i == 0 then "" else ",", Record(results[i]));
  }

  /**
   * Regrouping a concatenation, stated over plain strings: the solver settles
   * it at once here, but not beside the definitions of the records.
   */
  lemma Regrouped(head: string, a: string, b: string, c: string)
    ensures head + (a + b + c) == head + a + b + c
  {
  }

  /** Joining n records uses n - 1 separators: the joined text is as long as the records plus the commas. */
  lemma {:induction false} JoinedLength(records: seq<string>)
    requires records != []
    ensures |Joined(records)| == TotalLength(records) + |records| - 1
  {
    if |records| > 1 {
      var init := records[..|records| - 1];
      JoinedLength(init);
      assert records == init + [records[|records| - 1]];
      TotalLengthSnoc(init, records[|records| - 1]);
    }
  }

  function TotalLength(records: seq<string>): nat
  {
    if records == [] then 0 else |records[0]| + TotalLength(records[1..])
  }

  lemma {:induction false} TotalLengthSnoc(records: seq<string>, r: string)
    ensures TotalLength(records + [r]) == TotalLength(records) + |r|
  {
    if records != [] {
      assert (records + [r])[1..] == records[1..] + [r];
      TotalLengthSnoc(records[1..], r);
    }
  }

  // ------------------------------------------------------------------
  // The session writer
  // ------------------------------------------------------------------

  /** The session writer with its output file stream, record counter and current session. */
  class Instrumentor {
    const streams: Streams
    /** The file the stream is attached to while it is open. */
    var filepath: string
    var isOpen: bool
    /** False once an operation on the stream has failed; later writes are then dropped. */
    var good: bool
    var profileCount: nat
    var session: Option<string>

    ghost predicate Valid()
      reads this, streams
    {
      isOpen ==> filepath in streams.output.files
    }

    /** No session, no open file, counter at zero. */
    constructor (streams: Streams)
      ensures Valid() && this.streams == streams
      ensures !isOpen && good && profileCount == 0 && session == None
    {
      this.streams := streams;
      filepath := "";
      isOpen := false;
      good := true;
      profileCount := 0;
      session := None;
    }

    /**
     * Opens `path` for output, truncating it. Opening a stream that is
     * already open fails and leaves it attached to its file; so does a path
     * that cannot be written.
     */
    method Open(path: string)
      requires Valid()
      modifies this, streams
      ensures Valid() && profileCount == old(profileCount) && session == old(session)
      ensures if !old(isOpen) && path in streams.writable then
                isOpen && good && filepath == path &&
                streams.output == old(streams.output).(files := old(streams.output.files)[path := ""])
              else
                isOpen == old(isOpen) && filepath == old(filepath) && !good &&
                streams.output == old(streams.output)
    {
      if isOpen {
        good := false;
      } else if path in streams.writable {
        streams.output := streams.output.(files := streams.output.files[path := ""]);
        filepath := path;
        isOpen := true;
        good := true;
      } else {
        good := false;
      }
    }

    /** Writes text to the open, good stream; on any other stream the write fails. */
    method Write(text: string)
      requires Valid()
      modifies this, streams
      ensures Valid() && isOpen == old(isOpen) && filepath == old(filepath)
      ensures profileCount == old(profileCount) && session == old(session)
      ensures if old(isOpen && good) then
                good && streams.output == old(streams.output).(files := old(streams.output.files)[filepath := old(streams.output.files[filepath]) + text])
              else
                !good && streams.output == old(streams.output)
    {
      if isOpen && good {
        streams.output := streams.output.(files := streams.output.files[filepath := streams.output.files[filepath] + text]);
      } else {
        good := false;
      }
    }

    /** Detaches the stream from its file; closing a stream that is not open fails. */
    method Close()
      modifies this
      ensures !isOpen && filepath == old(filepath) && profileCount == old(profileCount) && session == old(session)
      ensures good == (old(good) && old(isOpen))
    {
      if isOpen {
        isOpen := false;
      } else {
        good := false;
      }
    }

    /** Writes the opening of the trace-event document. */
    method WriteHeader()
      requires Valid()
      modifies this, streams
      ensures Valid() && isOpen == old(isOpen) && filepath == old(filepath)
      ensures profileCount == old(profileCount) && session == old(session)
      ensures if old(isOpen && good) then
                good && streams.output == old(streams.output).(files := old(streams.output.files)[filepath := old(streams.output.files[filepath]) + Header])
              else
                !good && streams.output == old(streams.output)
    {
      Write(Header);
    }

    /** Writes the closing of the trace-event document. */
    method WriteFooter()
      requires Valid()
      modifies this, streams
      ensures Valid() && isOpen == old(isOpen) && filepath == old(filepath)
      ensures profileCount == old(profileCount) && session == old(session)
      ensures if old(isOpen && good) then
                good && streams.output == old(streams.output).(files := old(streams.output.files)[filepath := old(streams.output.files[filepath]) + Footer])
              else
                !good && streams.output == old(streams.output)
    {
      Write(Footer);
    }

    /** Opens the file, writes the header and records the session; the counter is left as it is. */
    method BeginSession(name: string, path: string := DefaultFilePath)
      requires Valid()
      modifies this, streams
      ensures Valid() && session == Some(name) && profileCount == old(profileCount)
      ensures !old(isOpen) && path in streams.writable ==>
                isOpen && good && filepath == path &&
                streams.output == old(streams.output).(files := old(streams.output.files)[path := Header])
      ensures old(isOpen) || path !in streams.writable ==>
                !good && isOpen == old(isOpen) && streams.output == old(streams.output)
    {
      Open(path);
      WriteHeader();
      assert "" + Header == Header;
      session := Some(name);
    }

    /** Writes the footer, closes the file and resets the counter. */
    method EndSession()
      requires Valid()
      modifies this, streams
      ensures Valid() && !isOpen && profileCount == 0 && session == old(session) && filepath == old(filepath)
      ensures if old(isOpen && good) then
                good && streams.output == old(streams.output).(files := old(streams.output.files)[filepath := old(streams.output.files[filepath]) + Footer])
              else
                !good && streams.output == old(streams.output)
    {
      WriteFooter();
      Close();
      profileCount := 0;
    }

    /** Writes one record, after a comma unless the counter is zero, and counts it. */
    method WriteProfile(result: ProfileResult)
      requires Valid()
      modifies this, streams
      ensures Valid() && isOpen == old(isOpen) && filepath == old(filepath) && session == old(session)
      ensures profileCount == old(profileCount) + 1
      ensures if old(isOpen && good) then
                good && streams.output == old(streams.output).(files := old(streams.output.files)[filepath :=
                  old(streams.output.files[filepath]) + (if old(profileCount) > 0 then "," else "") + Record(result)])
              else
                !good && streams.output == old(streams.output)
    {
      var first := profileCount == 0;
      profileCount := profileCount + 1;
      if !first {
        Write(",");
      }
      ghost var before := streams.output;
      Write(Record(result));
      if old(isOpen && good) {
        var separator := if first then "" else ",";
        assert before.files[filepath] == old(streams.output.files[filepath]) + separator;
      }
    }
  }

  /**
   * A whole session with a fresh writer: the file ends up holding the
   * header, the records joined by commas, and the footer.
   */
  method ProfileSession(streams: Streams, name: string, path: string, results: seq<ProfileResult>)
    requires path in streams.writable
    modifies streams
    ensures path in streams.output.files
    ensures streams.output.files[path] == Header + Joined(Records(results)) + Footer
  {
    var instrumentor := new Instrumentor(streams);
    instrumentor.BeginSession(name, path);
    var i := 0;
    assert Records(results[..0]) == [];
    assert SessionPrefix(results, 0) == Header + "" == Header;
    while i < |results|
      invariant 0 <= i <= |results|
      invariant instrumentor.Valid() && instrumentor.isOpen && instrumentor.good
      invariant instrumentor.filepath == path && instrumentor.streams == streams
      invariant instrumentor.profileCount == i
      invariant streams.output.files[path] == SessionPrefix(results, i)
    {
      SessionPrefixStep(results, i);
      instrumentor.WriteProfile(results[i]);
      i := i + 1;
    }
    assert results[..i] == results;
    instrumentor.EndSession();
  }
}
