# A verified model of the toolbox library's core

The toolbox is a small C++ utility library. This project models its five
sequential components in Dafny and proves what each one promises.

- **Command-line parser** (`clarg_parser.dfy`, module `Clargs`). The parser keeps
  two insertion-ordered lists: flags keyed `-name` and parameters keyed
  `-name=`. Registering a name that is already present is ignored. Lookup is a
  linear search by name. `Parse` scans `argv[1..]` once:
  - an argument equal to a flag's key sets that flag;
  - an argument that starts with a parameter's key marks that parameter found
    and stores the rest of the argument as its raw value.
- **Log sinks** (`log_sink.dfy`, module `LogSink`).
  - The console sinks append one line, plus a newline, to standard output or
    standard error.
  - On the console, error lines are wrapped in red and warning lines in
    yellow. These are SGR escape sequences, section 8.3.117 of ECMA-48.
  - The null sink drops every line.
  - The file sink owns one output stream and its path:
    - it reopens only when the path changes;
    - opening truncates the file;
    - a failed open is reported on standard error.
- **Logger** (`logger.dfy`, module `Logger`).
  - Three severity slots (error, warning, info) each point at one of four sink
    kinds.
  - One file sink is created lazily and then shared.
  - Every call writes the line `prefix + timestamp + [message + ": "] + value`
    to the sink of its own severity's slot.
- **Matrix** (`matrix.dfy`, module `Matrices`).
  - A dense `rows x cols` matrix stored row-major in one flat buffer.
  - Operations: checked element access, element-wise sum and difference,
    scaling, transpose, dot product, product, row extraction, and the two
    in-place row operations.
  - The value of a matrix is a `Grid`. Each operation is specified by a function
    on grids. The class `Matrix` implements the operation with the source's
    loops and is proved equal to that function.
  - `Grid.WellFormed`, `IsRowVector`, `IsColVector` and `IsSquare` are the
    accessors and predicates of `src/lib/matrix.hpp:21-30`.
  - `Count(rows, cols)` is the buffer length `rows * cols`. It is written as
    repeated addition (`CountIsProduct`) so that the index arithmetic stays
    linear.
- **Trace-event session writer** (`instrumentor.dfy`, module `Instrumentor`).
  - A session opens a file and writes the header of a trace-event JSON document.
  - Each profile record is one JSON object. Every record after the first since
    the counter was last zero is preceded by a comma.
  - Ending the session writes the footer, closes the file and resets the
    counter.
  - Double quotes in profile names become single quotes.

`wrappers.dfy` (module `Wrappers`) holds the `Option`, `Result` and `Outcome`
types. The operations use them in place of null pointers and thrown
exceptions.

Standard output, standard error and the file system are modelled by the class
`LogSink.Streams`:
- its `Output` value records everything written so far;
- its `writable` set says which paths the environment allows to be opened for
  writing.

Where the code and its own declarations disagree, the model makes these
choices:

- `AddParamToSearchList` takes a name and a parameter type, as
  `src/lib/clarg_parser.hpp:120-121` declares. `src/lib/clarg_parser.cpp:35`
  defines a one-argument version, which could not build the parameter.
- `Parse` stores the remainder of a matching argument as the parameter's raw
  value, through the setter of `src/lib/clarg_parser.hpp:92`.
  `src/lib/clarg_parser.cpp:69` calls a `value(string)` overload that the
  header does not declare.
- The sinks' `Log` takes the line and its message type, as
  `src/lib/log_sink.cpp:22`, `:43` and `:84` define. The header and the logger
  use a one-argument form. In the model, the logger passes the severity of the
  slot being written.
- Log lines start with the bracketed prefixes `[Err] `, `[Wrn] `, `[Inf] `
  followed by the timestamp, as the code builds them.
- `Parse` only ever sets `found` and a flag's value; it never clears them. The
  code has no reset.

## Model

| member | source | states |
|---|---|---|
| Clargs.FlagKey | src/lib/clarg_parser.hpp:41-43 | a flag's key is "-" followed by its name, one character longer |
| Clargs.ParamKey | src/lib/clarg_parser.hpp:87-90 | a parameter's key is "-", the name, then "=" |
| Clargs.KeysDetermineNames | src/lib/clarg_parser.hpp:87-90 | distinct names never share a flag key or a parameter key |
| Clargs.NewFlag | src/lib/clarg_parser.hpp:41-48 | a new flag carries its name and key and is neither found nor true |
| Clargs.NewParam | src/lib/clarg_parser.hpp:87-99 | a new parameter carries its name, key and declared type, is not found and has an empty raw value |
| Clargs.WithFlag | src/lib/clarg_parser.cpp:16-24 | registering a flag appends a new entry only when no flag has that name; otherwise the list is returned as it was |
| Clargs.WithParam | src/lib/clarg_parser.cpp:35-42 | registering a parameter appends a new entry with the given type only when no parameter has that name |
| Clargs.WithFlagProperties | src/lib/clarg_parser.cpp:16-24 | registering a flag keeps names distinct and keys matching, keeps the old entries in order, grows the list by one exactly when the name is new, and leaves the name registered |
| Clargs.WithParamProperties | src/lib/clarg_parser.cpp:35-42 | the same for parameters; a new entry is appended at the end with the given type |
| Clargs.WithFlagIdempotent | src/lib/clarg_parser.cpp:16-24 | registering a flag name a second time changes nothing |
| Clargs.WithParamIdempotent | src/lib/clarg_parser.cpp:35-42 | registering a parameter name a second time changes nothing, whatever type it gives: the first registration wins |
| Clargs.LastMatchFound | src/lib/clarg_parser.cpp:64-71 | a match is found iff some argument starts with the key |
| Clargs.LastMatch | src/lib/clarg_parser.cpp:64-71 | the remainder, after the key, of the last argument that starts with the key; nothing when no argument does |
| Clargs.FlagAfter | src/lib/clarg_parser.cpp:57-62 | a flag after the scan is found and true when some argument equals its key, and is otherwise unchanged |
| Clargs.ParamAfter | src/lib/clarg_parser.cpp:64-71 | a parameter after the scan is found with the last match's remainder as raw value, and is unchanged without a match |
| Clargs.LastMatchIsLast | src/lib/clarg_parser.cpp:64-71 | the value found is the remainder of a matching argument after which no argument matches, so a later match overwrites an earlier one |
| Clargs.FlagAfterFound | src/lib/clarg_parser.cpp:57-62 | after a scan a flag is found and true iff it already was or some argument equals its key; name and key are unchanged |
| Clargs.ParamAfterFound | src/lib/clarg_parser.cpp:64-71 | after a scan a parameter is found iff it already was or some argument starts with its key; name, key and type are kept; the raw value is the rest of the last matching argument; with no match the parameter is unchanged |
| Clargs.FlagAfterSnoc | src/lib/clarg_parser.cpp:57-62 | scanning one more argument is one more exact-match step |
| Clargs.ParamAfterSnoc | src/lib/clarg_parser.cpp:64-71 | scanning one more argument is one more prefix-match step |
| Clargs.Tokens | src/lib/clarg_parser.cpp:54-55 | the arguments Parse looks at: argv[1..], and none when there is at most the program name |
| Clargs.ScanFlag | src/lib/clarg_parser.cpp:58-61 | one argument sets a flag's found and value exactly when it equals the flag's key |
| Clargs.ScanParam | src/lib/clarg_parser.cpp:65-70 | one argument that starts with a parameter's key marks it found and stores the rest of the argument as its raw value |
| Clargs.ClargParser.constructor | src/lib/clarg_parser.hpp:136 | a new parser starts with empty flag and parameter lists and satisfies the list invariant |
| Clargs.ClargParser.AddFlagToSearchList | src/lib/clarg_parser.cpp:16-24 | the early-return scan, then append, produces exactly the registered list; the parameters are untouched and the list invariant is kept |
| Clargs.ClargParser.AddParamToSearchList | src/lib/clarg_parser.cpp:35-42 | the same for parameters with their declared type; the flags are untouched |
| Clargs.ClargParser.GetFlagSearchListCount | src/lib/clarg_parser.hpp:115-117 | the count is the list length reduced to a 32-bit unsigned value: equal to the length when it fits, and congruent to it otherwise |
| Clargs.ClargParser.GetParamSearchListCount | src/lib/clarg_parser.hpp:122-124 | the same for the parameter list |
| Clargs.ClargParser.GetFlag | src/lib/clarg_parser.cpp:26-33 | returns the position of the first flag with that name, and nothing exactly when no flag has that name |
| Clargs.ClargParser.GetParam | src/lib/clarg_parser.cpp:44-51 | returns the position of the first parameter with that name, and nothing exactly when no parameter has that name |
| Clargs.ClargParser.ScanFlags | src/lib/clarg_parser.cpp:57-62 | one argument is matched against every flag in place; the parameters are untouched |
| Clargs.ClargParser.ScanParams | src/lib/clarg_parser.cpp:64-71 | one argument is matched against every parameter in place; the flags are untouched |
| Clargs.ClargParser.Parse | src/lib/clarg_parser.cpp:53-74 | every entry ends as the scan of argv[1..] prescribes (nothing changes when there is at most one argument); no entry is added, removed or reordered; the invariant is kept |
| LogSink.UnstyledStyled | src/lib/log_sink.cpp:22-35 | the message can be recovered from every console line: error and warning lines are colour + message + reset, info lines are the message verbatim |
| LogSink.Styled | src/lib/log_sink.cpp:22-56 | the console text of a line: red or yellow colour, the line and the reset for errors and warnings, the bare line for info |
| LogSink.ErrorAndWarningDiffer | src/lib/log_sink.cpp:12-14 | on the console an error line never equals a warning line |
| LogSink.Opened | src/lib/log_sink.cpp:104-112 | opening a writable path creates it empty or truncates it; opening any other path leaves the files alone and appends "Error opening log file <path>" and a newline to standard error; standard output and other files never change |
| LogSink.LogCout | src/lib/log_sink.cpp:22-35 | appends the styled line and a newline to standard output only |
| LogSink.LogCerr | src/lib/log_sink.cpp:43-56 | appends the styled line and a newline to standard error only |
| LogSink.LogSinkFile.constructor | src/lib/log_sink.cpp:63-66 | stores the path and opens it at once |
| LogSink.LogSinkFile.OpenLogFile | src/lib/log_sink.cpp:104-112 | closes any open stream, then opens the current path; the stream is open iff the path can be written |
| LogSink.LogSinkFile.Log | src/lib/log_sink.cpp:84-86 | appends the line and a newline, unstyled, to the open file for any message type; a stream that failed to open writes nothing |
| LogSink.LogSinkFile.SetFilePath | src/lib/log_sink.cpp:93-98 | the current path changes nothing; a new path is stored and reopened |
| LogSink.LogSinkFile.Close | src/lib/log_sink.cpp:72-76 | the destructor leaves the stream closed and the path as it was |
| Logger.LogLineLayout | src/lib/logger.hpp:96-136 | a log line is the severity prefix, then the timestamp, then message + ": " + value when there is a message, else the value |
| Logger.LogLine | src/lib/logger.hpp:96-136 | the line one log call builds: the severity's prefix, the timestamp, then message + ": " + value or just the value |
| Logger.SeverityOfLogLine | src/lib/logger.hpp:73-75 | the prefix tells the line's severity back, so lines of different severities never share a prefix |
| Logger.Prefix | src/lib/logger.hpp:73-75 | the line prefixes "[Err] ", "[Wrn] " and "[Inf] " of the three severities |
| Logger.LogLineMentions | src/lib/logger.hpp:104-108 | a log line contains "Err", "Wrn" or "Inf" for its severity, the message when there is one, and the value |
| Logger.ConsoleLineMentions | tests/test_toolbox.cpp:23-38 | what the console shows still contains the severity tag, the message and the value |
| Logger.DeliveredOnce | src/lib/logger.hpp:96-101 | one log call writes to one destination only, and the line can be read back from it: unstyled from the console, verbatim from the file; the null sink changes nothing |
| Logger.Delivered | src/lib/log_sink.cpp:22-86 | the output after one line reaches a sink: styled on standard error or output, verbatim with a newline in an open file, and nothing for a closed file or the null sink |
| Logger.Logger.constructor | src/lib/logger.cpp:21-31 | errors and warnings go to standard error, information to standard output, there is no file sink, and the path is stored |
| Logger.Logger.GetInstance | src/lib/logger.cpp:38-41 | the process-wide logger starts with the default routing and the path "rtb.log" |
| Logger.Logger.SetSink | src/lib/logger.cpp:119-138 | only the chosen slot changes; choosing the file creates the file sink from the current path when there is none and otherwise reuses it; nothing else is written |
| Logger.Logger.SetErrorSink | src/lib/logger.cpp:73 | routes the error slot; the warning and info slots are unchanged |
| Logger.Logger.SetWarningSink | src/lib/logger.cpp:80 | routes the warning slot; the error and info slots are unchanged |
| Logger.Logger.SetInfoSink | src/lib/logger.cpp:87 | routes the info slot; the error and warning slots are unchanged |
| Logger.Logger.SetFileSinkPath | src/lib/logger.cpp:103-111 | always records the path; an existing file sink reopens at a new path, and on the same path it stays open or closed as it was and nothing is written; the routing is unchanged |
| Logger.Logger.Log | src/lib/logger.hpp:96-136 | formats one line and delivers it to the sink of its own severity's slot; the routing and the path are unchanged |
| Logger.ChangeLogFileTwice | tests/test_toolbox.cpp:184-203 | for any two distinct writable paths, switching the log file while errors go to the file leaves both files, each holding the one line written while it was current |
| Logger.ChangeLogFileTwiceInTest | tests/test_toolbox.cpp:184-203 | the test's own paths ./log/test1.log and ./log/test2.log end up holding the first and the second error line |
| Matrices.CountIsProduct | src/lib/matrix.cpp:19-20 | the buffer holds rows * cols elements |
| Matrices.OffsetInRange | src/lib/matrix.cpp:29-37 | the flat index i * cols + j of an in-range element lies inside the buffer |
| Matrices.OffsetInjective | src/lib/matrix.cpp:29-37 | distinct in-range elements have distinct flat indices |
| Matrices.Zeros | src/lib/matrix.cpp:19-20 | a new r x c matrix is well formed and every element is zero |
| Matrices.Element | src/lib/matrix.cpp:29-37 | checked access fails with out_of_range "operator(): row" when i >= rows, then with "operator(): column" when j >= cols, and otherwise reads flat index i * cols + j |
| Matrices.Peek | src/lib/matrix.cpp:46-48 | the unchecked const access checks neither index and reads a value stored in the buffer at flat position i * cols + j |
| Matrices.Grid.Updated | src/lib/matrix.cpp:29-37 | assigning through the checked access changes element (i, j) only |
| Matrices.PeekInRange | src/lib/matrix.cpp:46-48 | the unchecked const access agrees with checked access on in-range indices |
| Matrices.PeekPastRowEnd | src/lib/matrix.cpp:46-48 | the unchecked const access with column == cols is rejected by checked access but silently reads the first element of the next row |
| Matrices.Sum | src/lib/matrix.cpp:56-67 | fails with invalid_argument exactly on a shape mismatch; otherwise a same-shape element-wise sum |
| Matrices.Difference | src/lib/matrix.cpp:75-86 | fails with invalid_argument exactly on a shape mismatch; otherwise a same-shape element-wise difference |
| Matrices.SumThenDifference | src/lib/matrix.cpp:56-86 | (a + b) - b == a |
| Matrices.Scaled | src/lib/matrix.cpp:94-100 | every element is multiplied by the scalar and the shape is kept |
| Matrices.ScaledInverse | src/lib/matrix.cpp:94-100 | scaling by s and then by 1 / s restores the matrix |
| Matrices.Transposed | src/lib/matrix.cpp:108-118 | a cols x rows matrix with (j, i) equal to the original's (i, j) |
| Matrices.TransposeTwice | src/lib/matrix.cpp:108-118 | transposing twice restores the matrix |
| Matrices.TransposeShapes | src/lib/matrix.hpp:23-25 | transposition exchanges row and column vectors and keeps squareness |
| Matrices.Dot | src/lib/matrix.cpp:127-148 | defined iff both operands are one-dimensional with equal element counts; otherwise it fails with the message of the first failing check, in the order this matrix, the other matrix, the sizes; the value is the sum of element-wise products |
| Matrices.SumOfProductsSymmetric | src/lib/matrix.cpp:140-147 | the accumulated sum of products does not depend on the order of the operands |
| Matrices.DotSymmetric | src/lib/matrix.cpp:127-148 | a.DotProduct(b) equals b.DotProduct(a) whenever it is defined |
| Matrices.DotSelfNonNegative | src/lib/matrix.cpp:127-148 | the dot product of a vector with itself is never negative |
| Matrices.Product | src/lib/matrix.cpp:156-174 | fails exactly when cols != other.rows; otherwise a rows x other.cols matrix with (i, j) the sum over k of this(i, k) * other(k, j) |
| Matrices.ProductTransposed | src/lib/matrix.cpp:156-174 | the transpose of a product is the product of the transposes in reverse order |
| Matrices.Row | src/lib/matrix.cpp:182-193 | fails exactly when index >= rows; otherwise a 1 x cols copy of that row |
| Matrices.RowAdded | src/lib/matrix.cpp:202-217 | checks the row-vector shape, then the column count, then the index, each with its own message; on success only row rowIndex changes, by element-wise addition |
| Matrices.AddRowThenSubtract | src/lib/matrix.cpp:202-217 | adding a row vector and then its negation to the same row restores the matrix |
| Matrices.SwapSpans | src/lib/matrix.cpp:232-239 | exchanging two n-element stretches of the buffer changes those stretches only |
| Matrices.RowsSwapped | src/lib/matrix.cpp:225-241 | fails exactly on an invalid index; otherwise row i of the result is row SwappedIndex(i) of the original, so equal indices change nothing and every other row is kept |
| Matrices.SwapRowsTwice | src/lib/matrix.cpp:225-241 | swapping the same two rows twice restores the matrix |
| Matrices.Matrix.constructor | src/lib/matrix.cpp:19-20 | a new matrix is the all-zero grid of its shape |
| Matrices.Matrix.Set | src/lib/matrix.cpp:29-37 | assignment through operator() fails exactly as checked access does and leaves the buffer alone, else updates element (i, j) only |
| Matrices.Matrix.Plus | src/lib/matrix.cpp:56-67 | the loop computes a fresh matrix equal to Sum, or its error |
| Matrices.Matrix.Minus | src/lib/matrix.cpp:75-86 | the loop computes a fresh matrix equal to Difference, or its error |
| Matrices.Matrix.Times | src/lib/matrix.cpp:94-100 | the loop computes a fresh matrix equal to Scaled |
| Matrices.Matrix.Transpose | src/lib/matrix.cpp:108-118 | the nested loops compute a fresh matrix equal to Transposed |
| Matrices.Matrix.DotProduct | src/lib/matrix.cpp:127-148 | the accumulator loop computes Dot, or its error |
| Matrices.Matrix.Multiply | src/lib/matrix.cpp:156-174 | the loops over rows and columns compute a fresh matrix equal to Product, or its error |
| Matrices.Matrix.AccumulateEntry | src/lib/matrix.cpp:166-169 | the innermost loop of Multiply adds the sum over k of a(i, k) * b(k, j) to element (i, j) and changes nothing else |
| Matrices.Matrix.GetRow | src/lib/matrix.cpp:182-193 | the loop computes a fresh matrix equal to Row, or its error |
| Matrices.Matrix.AddRowToRow | src/lib/matrix.cpp:202-217 | in place: the new value is RowAdded of the old values, also when the row vector is the matrix itself; on failure nothing changes |
| Matrices.Matrix.SwapRows | src/lib/matrix.cpp:225-241 | in place: the new value is RowsSwapped of the old value; on failure nothing changes |
| Matrices.Matrix.SwapSpansInPlace | src/lib/matrix.cpp:233-240 | the exchange loop through a temporary leaves the buffer equal to SwapSpans of the old buffer |
| Instrumentor.NatString | src/lib/instrumentor.cpp:34 | a natural number is written as decimal digits with no leading zero |
| Instrumentor.DecimalString | src/lib/instrumentor.cpp:34-39 | an integer as the stream writes it: a minus sign exactly when it is negative, then only decimal digits |
| Instrumentor.DecimalRoundTrip | src/lib/instrumentor.cpp:34-39 | the decimal text written for a duration, thread id or start time reads back as the same integer |
| Instrumentor.Sanitized | src/lib/instrumentor.cpp:29-30 | every double quote of the name becomes a single quote and every other character is kept |
| Instrumentor.SanitizedHasNoQuote | src/lib/instrumentor.cpp:29-30 | a sanitized name contains no double quote |
| Instrumentor.SanitizedIdempotent | src/lib/instrumentor.cpp:29-30 | sanitizing twice is sanitizing once, and a name without double quotes is kept as it is |
| Instrumentor.RecordLayout | src/lib/instrumentor.cpp:32-40 | a record is one JSON object, braces included, whose name string holds exactly the sanitized name and ends at the first double quote after it |
| Instrumentor.Record | src/lib/instrumentor.cpp:29-40 | one profile as a JSON object: category, duration end - start, sanitized name, phase, pid 0, thread id and start time, in that order |
| Instrumentor.JoinedSnoc | src/lib/instrumentor.cpp:25-27 | appending a record adds a comma exactly when it is not the first |
| Instrumentor.Joined | src/lib/instrumentor.cpp:25-27 | the records in order with a comma between neighbours and none before the first |
| Instrumentor.JoinedLength | src/lib/instrumentor.cpp:25-27 | n records are joined with n - 1 commas |
| Instrumentor.SessionPrefixStep | src/lib/instrumentor.cpp:24-40 | after the header, writing record i extends the file by a comma unless it is the first, then the record |
| Instrumentor.Instrumentor.constructor | src/lib/instrumentor.hpp:50-54 | a new writer has no session, no open file and a zero counter |
| Instrumentor.Instrumentor.Open | src/lib/instrumentor.cpp:12 | opening a closed stream at a writable path truncates the file; reopening an open stream, or an unwritable path, fails and writes nothing |
| Instrumentor.Instrumentor.Write | src/lib/instrumentor.cpp:26 | text reaches the file only while the stream is open and good; otherwise the stream goes bad |
| Instrumentor.Instrumentor.Close | src/lib/instrumentor.cpp:20 | the stream is closed afterwards; closing a stream that is not open fails |
| Instrumentor.Instrumentor.WriteHeader | src/lib/instrumentor.cpp:45-48 | appends the trace-event header |
| Instrumentor.Instrumentor.WriteFooter | src/lib/instrumentor.cpp:50-53 | appends "]}" |
| Instrumentor.Instrumentor.BeginSession | src/lib/instrumentor.cpp:10-16 | the path defaults to instrumentor.json as src/lib/instrumentor.hpp:41-42 declares; the file is opened and holds just the header; the session is recorded; the counter is not reset |
| Instrumentor.Instrumentor.EndSession | src/lib/instrumentor.cpp:18-22 | appends the footer, closes the file and resets the counter to zero |
| Instrumentor.Instrumentor.WriteProfile | src/lib/instrumentor.cpp:24-43 | appends a comma when the counter was non-zero, then the record, and counts it |
| Instrumentor.ProfileSession | src/lib/instrumentor.cpp:10-53 | begin, n profiles, end leaves the file holding the header, the records joined by commas, and the footer |

## Left out

- Real I/O. Standard output, standard error and files are the `Output` value of
  `LogSink.Streams`. Whether an open succeeds is decided by the environment's
  `writable` set.
- Flushing (`std::endl`, `flush()`). Output is never buffered in the model.
- Timestamp generation in `Logger::GetTimestamp` (wall clock, `localtime`, and a
  mutex local to the function). The timestamp is a string parameter of
  `Logger.Logger.Log`.
- Rendering of the logged value through `operator<<` (`src/lib/logger.hpp`
  templates). The value arrives already rendered as a string.
- The public static `Logger::Log*` entry points and the singleton plumbing.
  - The logger is an explicit object: `Logger.Logger.GetInstance` creates it
    with the default path, and it is not cached.
  - The parser and the session writer are created with their constructors.
- Concurrency and thread safety. Nothing in the code serializes calls.
- Conversion of parameter values to a `ParamType`, and `ErrorCode`/`var_type`.
  These are declared but never implemented. A parameter keeps its raw string.
- Clargs.ClargParser.GetFlag: returns the entry's position in the list instead
  of a pointer to it. Writes through that pointer are not modelled.
- Clargs.ClargParser.GetParam: returns the entry's position in the list
  instead of a pointer to it. Writes through that pointer are not modelled.
- Copy and move deletion on `LogSinkFile` and the parser. Dafny objects are
  never copied implicitly.
- `Timer` and `InstrumentationTimer`: clocks, millisecond doubles and thread-id
  hashing. A profile result is given directly.
- Matrices: elements are `real`, so IEEE double rounding is not modelled and
  the equalities proved are exact.
- Matrices: `size_t` overflow of `rows * cols` and of `i * cols + j` is not
  modelled, because dimensions are unbounded naturals.
- Matrices.Peek: reading past the end of the buffer through the unchecked const
  `operator()` is undefined behaviour. The model only reads inside the buffer.
- Instrumentor.Instrumentor.WriteProfile: does not model the overflow of the
  `int` counter or of the `long long` difference `end - start`. The model uses
  unbounded integers.
- Instrumentor: the thread id is a natural number, not a 32-bit hash.
- `src/apps/sandbox.cpp` is a demo driver with no logic of its own. It is not
  part of this model.
