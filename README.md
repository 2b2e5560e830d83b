# json2parquet: a verified model of `main`'s own logic

`json2parquet` reads newline-delimited JSON from standard input and writes a
Parquet file to standard output. Most of `main.cpp` hands work to Apache
Arrow's JSON reader and Parquet writer. The logic the program does itself
is modelled here:

- **The command line** (`command_line.dfy`). The left-to-right scan of
  `argv` handles `--date-fields`, `--max-row-group-length`, `--compression`
  and `--schema-file`. It has defaults of 1000000 and `"zstd"`. An unknown
  argument, or a flag in last position, stops the scan with status -1.
  - The meaning is given by two functions. `Options` pairs each flag with
    the argument after it and reports where it stops. `ApplyAll` folds the
    pairs into a `Config`.
  - `ParseCommandLine` is the loop itself, with its `i++` in every branch.
    It is proved equal to `ParseArgs`.
- **`strtok`** (`tokenizer.dfy`). One call skips leading delimiters,
  returns the maximal delimiter-free run and consumes one delimiter after
  it. `SplitTokens` gives the tokens that successive calls return.
  - `SplitTokens` is proved to be "the maximal runs". Cutting at a
    delimiter splits the tokens, a delimiter-free string is one token, and a
    string of delimiters has none. Joining tokens with a delimiter and
    splitting again gives them back.
- **`atoi` and `sscanf`'s `%d`** (`numeric.dfy`). Both skip white space,
  take one optional sign and then the longest digit run.
- **The schema file** (`schema.dfy`). Each line is cut at `:`, blank and
  newline. The first token is the field name and the second the type name;
  a line with fewer than two tokens is skipped.
  - Type names: `date`, `int32`, `int64` and `double` are tested exactly
    first. Then any name containing `decimal` is read with
    `decimal(%d,%d)`. Any other name adds nothing.
  - `AppendSchemaFields` is the `while (fgets ...)` loop, proved against
    the fold `SchemaFields`.
- **What `main` does next** (`converter.dfy`).
  - The `--date-fields` fields come first, then the schema file's fields.
  - The explicit schema is installed exactly when that list is not empty.
  - Every record batch is offered to the writer. Write and close failures
    are only logged, and `main` returns 0.
- **`StdinStream`** (`stdin_stream.dfy`). This is the byte source the
  JSON reader pulls from, a class over a modelled console.
  - The console (`Console`) is the whole input and a cursor into it.
  - `StdinStream` keeps `pos_`, and a ghost record `delivered` of every
    byte it has handed out.

Two things about the source worth knowing:

- The usage text (main.cpp:60) does not mention `--schema-file`, which the
  argument loop accepts (main.cpp:85-86).
- `strtok` drops empty segments, so leading, trailing or doubled commas in
  a `--date-fields` value give no field.

I/O is replaced by values:
- The arguments are a `seq<string>`.
- The schema file is its `seq<string>` of lines.
- Standard input is the byte sequence held by `Console`.
- The batches the reader produces are a given sequence, with the writer's
  answer to each write and to `Close`.

## Model

| member | source | states |
|---|---|---|
| Tokenizer.SkipDelims | main.cpp:77 | what is left once the leading delimiters are skipped: no longer than the input, and starting with a non-delimiter if anything is left |
| Tokenizer.RunLength | main.cpp:77 | the length of the longest delimiter-free prefix; it ends at the end of the string or at a delimiter |
| Tokenizer.SplitTokens | main.cpp:77-79 | the tokens successive `strtok` calls return, in order; its properties are SplitTokensWellFormed, SplitSingleRun, SplitOnlyDelims and SplitAtDelimiter |
| Numeric.ScanInt | main.cpp:82 | the conversion shared by `atoi` and `%d`: white space, an optional sign and at least one digit, giving the value and a strictly shorter rest, or nothing when no digit is found |
| Numeric.Atoi | main.cpp:82 | `atoi`: the scanned value, or 0 when there is no number |
| Schema.Contains | main.cpp:114 | `strstr(type, "decimal") != NULL`: the substring occurs somewhere in the name |
| Schema.ScanDecimal | main.cpp:115-116 | `sscanf(type, "decimal(%d,%d)")` when it assigns both numbers: the literal `decimal(`, a number, a comma and a second number, the tail ignored |
| Schema.ClassifyType | main.cpp:106-118 | the type chain: the four exact names first, then any name containing `decimal`, else no field; its properties are ClassifyTypeName and ClassifyTypeUnknown |
| Schema.ParseLine | main.cpp:102-118 | one line: first token the name, second the type, later tokens ignored, no field when a token is missing or the type is unknown |
| Schema.SchemaFields | main.cpp:101-119 | the fields of all lines, line by line in file order |
| CommandLine.ParseFlag | main.cpp:76-86 | the `strcmp` tests against the four flag names |
| CommandLine.Options | main.cpp:75-91 | pairs each flag with the argument after it, left to right, failing at the first unknown argument or flag in last position |
| CommandLine.Apply | main.cpp:76-86 | one option: `--date-fields` appends one `date32` field per token, the other three overwrite their setting |
| CommandLine.ApplyAll | main.cpp:75-91 | the options applied in argument order |
| CommandLine.ParseArgs | main.cpp:69-91 | the settings after the scan starting from the defaults, or the error for the argument the usage text is printed at |
| Converter.CollectFields | main.cpp:72-121 | the fields `main` collects: those of `--date-fields`, then the schema file's when a file was named |
| Converter.ExplicitSchema | main.cpp:123-125 | the explicit schema: set to the collected fields unless there are none |
| Tokenizer.Strtok | main.cpp:77-79 | a token `strtok` returns is never empty and the rest it resumes from is strictly shorter |
| Tokenizer.StrtokFinds | main.cpp:77-79 | `strtok` finds no token exactly when only delimiters are left, and the token it finds holds no delimiter |
| Tokenizer.StrtokTokenAt | main.cpp:102-104 | the token starts after the leading delimiters, is a slice of the input, and the rest begins just after the one delimiter that ends it |
| Tokenizer.SkipDelimsEmpty | main.cpp:77 | skipping drops a prefix made of delimiters only, and leaves nothing exactly when the whole string is delimiters |
| Tokenizer.RunLengthNoDelims | main.cpp:77 | the token run holds no delimiter, and a delimiter-free string is one run |
| Tokenizer.SkipDelimsIdempotent | main.cpp:77-79 | skipping leading delimiters twice is skipping them once |
| Tokenizer.StrtokSkipsDelims | main.cpp:77-79 | leading delimiters do not change what `strtok` returns |
| Tokenizer.SplitSkipsDelims | main.cpp:77-79 | leading delimiters do not change the token list |
| Tokenizer.SplitTokensWellFormed | main.cpp:77-79 | no token in the list is empty or holds a delimiter, so doubled, leading or trailing commas give no empty field |
| Tokenizer.SplitSingleRun | main.cpp:77-79 | a non-empty delimiter-free string is returned as the only token |
| Tokenizer.SplitOnlyDelims | main.cpp:77-79 | the token list is empty exactly when the string is delimiters only |
| Tokenizer.SplitAtDelimiter | main.cpp:77-79 | the tokens of `a + [d] + b` for a delimiter `d` are the tokens of `a` followed by those of `b` |
| Tokenizer.SkipDelimsAcross | main.cpp:77-79 | skipping in `a + [d] + b` skips all of `a` and `d` when `a` is delimiters only, and otherwise stops inside `a` |
| Tokenizer.RunLengthAcross | main.cpp:77-79 | a delimiter after `t` ends the run no later than the end of `t` |
| Tokenizer.SplitJoin | main.cpp:76-80 | joining well-formed tokens with a delimiter and splitting the result gives the tokens back |
| Numeric.ScanIntOfDigits | main.cpp:82 | a digit string, unsigned or after `-`, scans as its value, with the scan stopping right after it |
| Numeric.ScanIntOfIntToString | main.cpp:115-116 | `%d` reads back the decimal spelling of any integer and stops right after it |
| Numeric.AtoiOfIntToString | main.cpp:82 | `atoi` reads back the decimal spelling of any integer, the round trip `--max-row-group-length` relies on |
| Numeric.ScanIntSkipsSpaces | main.cpp:82 | leading white space does not change what is scanned |
| Numeric.ScanIntSuffix | main.cpp:115-116 | what follows the number is a tail of the input, so the conversion consumes only a prefix |
| Numeric.DigitsValueOfNatToString | main.cpp:82 | the digits of a natural number denote that number |
| Numeric.DigitRunOfDigits | main.cpp:82 | the digit run of digits followed by a non-digit is exactly the digits |
| Schema.ScanDecimalName | main.cpp:115-116 | `sscanf(t, "decimal(%d,%d)")` on `decimal(a,b)` assigns `a` and `b` |
| Schema.ClassifyDecimalName | main.cpp:114-117 | a `decimal(a,b)` type name is found by the `strstr` test and maps to `decimal128(a, b)` |
| Schema.ClassifyTypeName | main.cpp:106-118 | every type name a schema file can spell maps back to the type it names: date, int32, int64, double and decimal |
| Schema.ClassifyTypeUnknown | main.cpp:106-118 | a type name adds no field exactly when it is none of the four exact names and holds no `decimal` |
| Schema.ParseLineTokens | main.cpp:102-105 | a line gives a field exactly when it has at least two tokens and the second is a known type; its name is the first token, and later tokens are ignored |
| Schema.TypeNameNoDelims | main.cpp:100 | a type name holds no blank, colon or newline |
| Schema.TypeNameTokens | main.cpp:100-104 | a type name between a blank and the newline is one token |
| Schema.FieldLineTokens | main.cpp:100-104 | the tokens of `name: type\n` are the name and the type name |
| Schema.ParseFieldLine | main.cpp:100-119 | writing a field as `name: type` and parsing the line gives the field back |
| Schema.LineFieldsOfFieldLine | main.cpp:100-119 | such a line contributes exactly that field |
| Schema.SchemaFieldsConcat | main.cpp:101-119 | the fields of two files read one after the other are the first's followed by the second's |
| Schema.SchemaFieldsOfFieldLines | main.cpp:101-119 | a file written from well-formed fields is read back as those fields, in order and with duplicates |
| Schema.SchemaFieldsFromLines | main.cpp:101-119 | at most one field per line, and every field is what some line parses to |
| Schema.SchemaFieldsStep | main.cpp:101-119 | one more line appends exactly that line's fields |
| Schema.AppendSchemaFields | main.cpp:101-119 | the `fgets` loop appends to the fields already there exactly the fold of the per-line parser over the lines |
| CommandLine.ParseFlagName | main.cpp:76-86 | each flag name is recognised as its flag |
| CommandLine.ParseFlagSound | main.cpp:76-86 | only the four flag names are recognised |
| CommandLine.FlagConsumesNext | main.cpp:76-86 | a recognised flag takes exactly the next argument as its value, whatever it is |
| CommandLine.OptionsRenderBack | main.cpp:75-91 | a successful scan uses the arguments up in pairs of flag and value, and spelling out the pairs gives the arguments |
| CommandLine.OptionsOfRender | main.cpp:75-91 | spelling out options and scanning them again gives the options back |
| CommandLine.StopsAtError | main.cpp:87-89 | where the scan meets an unknown argument or a flag without a value, it fails naming that argument |
| CommandLine.ErrorStopsAt | main.cpp:87-89 | a failed scan always stopped at such an argument, after consuming whole pairs |
| CommandLine.ParseFromStops | main.cpp:87-89 | an unknown argument or a last flag ends the scan with the error for that argument |
| CommandLine.ParseFromFlag | main.cpp:76-86 | a flag with its value updates the settings and the scan continues two arguments on |
| CommandLine.ApplyAllConcat | main.cpp:75-91 | applying two option lists one after the other is applying their concatenation |
| CommandLine.ApplyAllKeeps | main.cpp:81-86 | an option that never occurs leaves its setting unchanged |
| CommandLine.LastOccurrenceWins | main.cpp:81-86 | for `--max-row-group-length`, `--compression` and `--schema-file` the value of the last occurrence is the one kept |
| CommandLine.DefaultsKept | main.cpp:69-73 | a setting whose flag never occurs keeps its default: 1000000 rows, `zstd`, no schema file, no fields |
| CommandLine.DateFieldsInOrder | main.cpp:76-80 | every `--date-fields` token becomes one `date32` field, in argument order, after the fields already collected |
| CommandLine.DateFieldsOfConcat | main.cpp:78-79 | the `date32` fields of two name lists are those of the first followed by those of the second |
| CommandLine.DateFieldNamesWellFormed | main.cpp:76-80 | no `--date-fields` name is empty or holds a comma |
| CommandLine.AppendDateFields | main.cpp:76-80 | the inner `strtok` loop appends one `date32` field per token, in order |
| CommandLine.ParseCommandLine | main.cpp:75-91 | the argument loop from `argv[1]` gives the settings `ParseArgs` defines, or the error for the argument the usage text is printed at |
| Converter.CollectedFields | main.cpp:72-121 | the collected fields are the `--date-fields` fields in argument order, then the schema file's fields if a file was named, duplicates kept |
| Converter.ExplicitSchemaInstalled | main.cpp:123-125 | an explicit schema is installed exactly when some `--date-fields` token was given or a named schema file contributed a field, and it is then the collected fields |
| Converter.ForwardBatches | main.cpp:155-160 | every batch is offered to the writer in order, and each failed write only adds one logged message |
| Converter.Run | main.cpp:64-166 | a bad command line gives status -1 with nothing read or written; otherwise the status is 0, the schema is the collected fields, every batch is offered, and each write or close failure is only logged |
| Stdin.Console.Read | main.cpp:45-46 | `cin.read` then `gcount()` extracts min(count, what is left), and copies those next input bytes to the front of the buffer without touching the rest |
| Stdin.StdinStream.constructor | main.cpp:36 | a new stream is at position 0 and has handed out nothing |
| Stdin.StdinStream.Close | main.cpp:38 | closing always succeeds |
| Stdin.StdinStream.Closed | main.cpp:40 | the stream never reports itself closed |
| Stdin.StdinStream.Tell | main.cpp:42 | the position is the number of bytes handed out so far |
| Stdin.StdinStream.ReadInto | main.cpp:44-49 | `Read(nbytes, out)` returns a count of at most `nbytes`, and the bytes placed in `out` are the next ones of the input. The count is 0 only at end of input or when 0 was asked for, and `pos_` advances by the count |
| Stdin.StdinStream.Read | main.cpp:51-57 | `Read(nbytes)` returns a buffer whose length is the count read, holding the next bytes of the input |
| Stdin.ReadTwice | main.cpp:42-57 | two reads hand out consecutive stretches of the input, and `Tell` counts both |

## Left out

- The Arrow JSON reader (`StreamingReader`), its type inference and batch boundaries, are foreign library code. The batches are a given sequence.
- The Parquet side is foreign library code and is not modelled:
  - `FileWriter`
  - the two property builders
  - `WriteRecordBatch`
  - `Close`
  Only the answer to each `WriteRecordBatch` call and to `Close` is given to `Converter.Run`.
- Converter.Run: three `Result`s are dereferenced without a check: `*StreamingReader::Make` (main.cpp:131), `*FileWriter::Open` (main.cpp:151) and `*maybe_batch` (main.cpp:156). A failure of any of them is undefined behaviour, not a logged message. The model assumes all three succeed, so its "status 0" promise holds only under that assumption.
- `StdoutStream` and the standard-error messages are not modelled; `logged` counts the error messages.
- The compression codec lookup (`GetCompressionType`) and its unchecked dereference are library behaviour. The compression setting is kept as the name given.
- `fopen`, `fgets` and `fclose` are not modelled; the schema file is its sequence of lines. These details are left out:
  - the exit when the file cannot be opened
  - the 1024-byte chunking of long lines
  - the embedded NUL bytes of C strings
- The usage text (`usage`, `printf`) is output formatting only. `CommandLine.UsageExitStatus` is the -1 `main` returns after it.
- `strtok` writes terminators into `argv` and into the line buffer. The model works on values, so it does not capture that mutation, only the tokens it yields.
- Numeric.ScanInt: the result is unbounded. It does not model `int` overflow in `atoi` or `%d`, which is undefined behaviour in C.
- Schema.ClassifyType: the source leaves `a` and `b` uninitialised when `sscanf` does not assign both. The model gives such a type name the separate value `Decimal128Unspecified` instead of arbitrary numbers.
- Stdin.Console.Read: `std::cin.read` is taken to extract exactly min(count, what is left), the blocking behaviour of a stream that only ends at end-of-file. Stream errors other than end-of-file are not modelled.
- Stdin.StdinStream.ReadInto: `nbytes` is a `nat`. A negative request and the 64-bit overflow of `pos_` are not modelled.
- Stdin.StdinStream.Read: the `AllocateResizableBuffer` and `Resize` failure paths, and `ZeroPadding`, are allocator behaviour and are not modelled. The buffer is the sequence of bytes read.
- `set_mode(READ)` in the constructor is Arrow bookkeeping with no observable effect here, and is not modelled.
