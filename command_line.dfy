/**
 * The command line of `main`: a left-to-right scan of the arguments after
 * the program name in which every recognised flag takes the argument after
 * it as its value, and anything else stops the program with status -1.
 *
 * The meaning is given in two layers: Options pairs each flag with its
 * value (or reports the argument it stopped at), and ApplyAll folds the
 * pairs into a Config, so that later pairs overwrite earlier ones.
 * ParseCommandLine is the loop itself, proved to agree with them.
 */
module CommandLine {
  import opened Wrappers
  import opened Tokenizer
  import opened Numeric
  import opened Schema

  datatype Flag = DateFields | MaxRowGroupLength | Compression | SchemaFile

  function FlagName(f: Flag): string {
    match f
    case DateFields => "--date-fields"
    case MaxRowGroupLength => "--max-row-group-length"
    case Compression => "--compression"
    case SchemaFile => "--schema-file"
  }

  /** The `strcmp` tests against the four flag names. */
  function ParseFlag(arg: string): Option<Flag> {
    if arg == FlagName(DateFields) then Some(DateFields)
    else if arg == FlagName(MaxRowGroupLength) then Some(MaxRowGroupLength)
    else if arg == FlagName(Compression) then Some(Compression)
    else if arg == FlagName(SchemaFile) then Some(SchemaFile)
    else None
  }

  /** A flag together with the argument that follows it. */
  datatype Opt = Opt(flag: Flag, value: string)

  /**
   * What the scan collects: the `date32` fields of `--date-fields`, the
   * row-group length, the compression codec's name (the codec lookup is
   * not modelled) and the schema file's name (empty: none).
   */
  datatype Config = Config(fields: seq<Field>, maxRowGroupLength: int, compression: string, schemaFile: string)

  const DefaultMaxRowGroupLength: int := 1000000
  const DefaultCompression: string := "zstd"

  const Defaults: Config := Config([], DefaultMaxRowGroupLength, DefaultCompression, "")

  /** The argument at which the scan stopped: an unknown one, or a flag with nothing after it. */
  datatype ArgError = UnknownArg(arg: string)

  /** The value `main` returns after printing the usage text. */
  const UsageExitStatus: int := -1

  /** `--date-fields` is cut with `strtok(..., ",")`. */
  const FieldSeparators: set<char> := {','}

  function DateFieldsOf(names: seq<string>): seq<Field> {
    seq(|names|, i requires 0 <= i < |names| => Field(names[i], Date32))
  }

  /** Pairs every flag with the next argument; stops at the first argument that is not a flag or a flag that comes last. */
  function Options(args: seq<string>): Result<seq<Opt>, ArgError>
    decreases |args|
  {
    if args == [] then Ok([])
    else if ParseFlag(args[0]).Some? && |args| >= 2 then
      match Options(args[2..])
      case Ok(opts) => Ok([Opt(ParseFlag(args[0]).value, args[1])] + opts)
      case Err(e) => Err(e)
    else Err(UnknownArg(args[0]))
  }

  /** The arguments that spell out a list of options. */
  function Render(opts: seq<Opt>): seq<string> {
    if opts == [] then [] else [FlagName(opts[0].flag), opts[0].value] + Render(opts[1..])
  }

  /** The effect of one option: `--date-fields` appends, the other three overwrite. */
  function Apply(cfg: Config, o: Opt): Config {
    match o.flag
    case DateFields => cfg.(fields := cfg.fields + DateFieldsOf(SplitTokens(o.value, FieldSeparators)))
    case MaxRowGroupLength => cfg.(maxRowGroupLength := Atoi(o.value))
    case Compression => cfg.(compression := o.value)
    case SchemaFile => cfg.(schemaFile := o.value)
  }

  function ApplyAll(cfg: Config, opts: seq<Opt>): Config
    decreases |opts|
  {
    if opts == [] then cfg else ApplyAll(Apply(cfg, opts[0]), opts[1..])
  }

  /** Scanning `args` starting from the settings `cfg`. */
  function ParseFrom(cfg: Config, args: seq<string>): Result<Config, ArgError> {
    match Options(args)
    case Ok(opts) => Ok(ApplyAll(cfg, opts))
    case Err(e) => Err(e)
  }

  /** The settings after the scan of the arguments that follow the program name. */
  function ParseArgs(args: seq<string>): Result<Config, ArgError> {
    ParseFrom(Defaults, args)
  }

  /** The names `--date-fields` options contribute, in argument order. */
  function DateFieldNames(opts: seq<Opt>): seq<string> {
    if opts == [] then []
    else
      var names := if opts[0].flag == DateFields then SplitTokens(opts[0].value, FieldSeparators) else [];
      names + DateFieldNames(opts[1..])
  }

  // ---- flags

  lemma ParseFlagName(f: Flag)
    ensures ParseFlag(FlagName(f)) == Some(f)
  {
  }

  /** Only the four flag names are recognised. */
  lemma ParseFlagSound(arg: string)
    ensures ParseFlag(arg).Some? ==> FlagName(ParseFlag(arg).value) == arg
  {
  }

  // ---- pairing flags with values

  /**
   * A recognised flag consumes exactly the argument after it, whatever that
   * argument is. This is one step of the scan; OptionsRenderBack and
   * OptionsOfRender state the whole pairing.
   */
  lemma FlagConsumesNext(f: Flag, v: string, rest: seq<string>)
    ensures Options([FlagName(f), v] + rest) ==
      match Options(rest)
      case Ok(opts) => Ok([Opt(f, v)] + opts)
      case Err(e) => Err(e)
  {
    ParseFlagName(f);
    assert ([FlagName(f), v] + rest)[2..] == rest;
  }

  /** A successful scan uses the arguments up in (flag, value) pairs, and spelling the pairs out gives the arguments. */
  lemma {:induction false} OptionsRenderBack(args: seq<string>)
    requires Options(args).Ok?
    ensures |args| == 2 * |Options(args).value|
    ensures Render(Options(args).value) == args
    decreases |args|
  {
    if args != [] {
      OptionsRenderBack(args[2..]);
      ParseFlagSound(args[0]);
      var opts := Options(args).value;
      assert opts[1..] == Options(args[2..]).value;
      assert args == [args[0], args[1]] + args[2..];
    }
  }

  /** Spelling out options and scanning them again gives the options back. */
  lemma {:induction false} OptionsOfRender(opts: seq<Opt>)
    ensures Options(Render(opts)) == Ok(opts)
  {
    if opts != [] {
      OptionsOfRender(opts[1..]);
      FlagConsumesNext(opts[0].flag, opts[0].value, Render(opts[1..]));
      assert [opts[0]] + opts[1..] == opts;
    }
  }

  /**
   * The scan stops at index `k`: the arguments before it were used up in
   * pairs, and `args[k]` is no flag or is a flag with nothing after it.
   */
  predicate StopsAt(args: seq<string>, k: nat) {
    k < |args| && Options(args[..k]).Ok? && (ParseFlag(args[k]).None? || k == |args| - 1)
  }

  /** Where the scan stops, the result is the error naming that argument. */
  lemma {:induction false} StopsAtError(args: seq<string>, k: nat)
    requires StopsAt(args, k)
    ensures Options(args) == Err(UnknownArg(args[k]))
    decreases k
  {
    if k > 0 {
      var pre := args[..k];
      assert pre != [];
      assert pre[0] == args[0];
      assert ParseFlag(args[0]).Some? && |pre| >= 2;
      assert pre[2..] == args[2..][..k - 2];
      assert args[2..][k - 2] == args[k];
      StopsAtError(args[2..], k - 2);
    }
  }

  /** A failed scan names the argument it stopped at. */
  lemma {:induction false} ErrorStopsAt(args: seq<string>)
    requires Options(args).Err?
    ensures exists k: nat :: StopsAt(args, k) && Options(args).error == UnknownArg(args[k])
    decreases |args|
  {
    if ParseFlag(args[0]).Some? && |args| >= 2 {
      ErrorStopsAt(args[2..]);
      var k: nat :| StopsAt(args[2..], k) && Options(args[2..]).error == UnknownArg(args[2..][k]);
      assert args[..k + 2][2..] == args[2..][..k];
      assert args[..k + 2][0] == args[0];
      assert args[2..][k] == args[k + 2];
      assert StopsAt(args, k + 2);
    } else {
      assert args[..0] == [];
      assert StopsAt(args, 0);
    }
  }

  // ---- folding options into settings

  lemma {:induction false} ApplyAllConcat(cfg: Config, a: seq<Opt>, b: seq<Opt>)
    ensures ApplyAll(cfg, a + b) == ApplyAll(ApplyAll(cfg, a), b)
    decreases |a|
  {
    if a == [] {
      assert a + b == b;
    } else {
      assert (a + b)[1..] == a[1..] + b;
      ApplyAllConcat(Apply(cfg, a[0]), a[1..], b);
    }
  }

  /** An option that does not occur leaves its setting as it was. */
  lemma {:induction false} ApplyAllKeeps(cfg: Config, opts: seq<Opt>, f: Flag)
    requires forall j :: 0 <= j < |opts| ==> opts[j].flag != f
    ensures f == DateFields ==> ApplyAll(cfg, opts).fields == cfg.fields
    ensures f == MaxRowGroupLength ==> ApplyAll(cfg, opts).maxRowGroupLength == cfg.maxRowGroupLength
    ensures f == Compression ==> ApplyAll(cfg, opts).compression == cfg.compression
    ensures f == SchemaFile ==> ApplyAll(cfg, opts).schemaFile == cfg.schemaFile
    decreases |opts|
  {
    if opts != [] {
      assert opts[0].flag != f;
      ApplyAllKeeps(Apply(cfg, opts[0]), opts[1..], f);
    }
  }

  /** For the three overwritten settings the last occurrence wins. */
  lemma LastOccurrenceWins(cfg: Config, pre: seq<Opt>, o: Opt, post: seq<Opt>)
    requires forall j :: 0 <= j < |post| ==> post[j].flag != o.flag
    ensures var r := ApplyAll(cfg, pre + [o] + post);
      && (o.flag == MaxRowGroupLength ==> r.maxRowGroupLength == Atoi(o.value))
      && (o.flag == Compression ==> r.compression == o.value)
      && (o.flag == SchemaFile ==> r.schemaFile == o.value)
  {
    ApplyAllConcat(cfg, pre + [o], post);
    ApplyAllConcat(cfg, pre, [o]);
    ApplyAllKeeps(ApplyAll(cfg, pre + [o]), post, o.flag);
  }

  /** Every `--date-fields` token becomes one `date32` field, in argument order, after the fields already there. */
  lemma {:induction false} DateFieldsInOrder(cfg: Config, opts: seq<Opt>)
    ensures ApplyAll(cfg, opts).fields == cfg.fields + DateFieldsOf(DateFieldNames(opts))
    decreases |opts|
  {
    if opts != [] {
      var c := Apply(cfg, opts[0]);
      var a := if opts[0].flag == DateFields then SplitTokens(opts[0].value, FieldSeparators) else [];
      var rest := DateFieldNames(opts[1..]);
      assert c.fields == cfg.fields + DateFieldsOf(a);
      DateFieldsInOrder(c, opts[1..]);
      DateFieldsOfConcat(a, rest);
      ConcatAssoc(cfg.fields, DateFieldsOf(a), DateFieldsOf(rest));
    }
  }

  lemma DateFieldsOfConcat(a: seq<string>, b: seq<string>)
    ensures DateFieldsOf(a + b) == DateFieldsOf(a) + DateFieldsOf(b)
  {
  }

  /** No `--date-fields` token is empty or holds a comma. */
  lemma {:induction false} DateFieldNamesWellFormed(opts: seq<Opt>)
    ensures forall i :: 0 <= i < |DateFieldNames(opts)| ==>
      DateFieldNames(opts)[i] != [] && NoDelims(DateFieldNames(opts)[i], FieldSeparators)
  {
    if opts != [] {
      DateFieldNamesWellFormed(opts[1..]);
      SplitTokensWellFormed(opts[0].value, FieldSeparators);
    }
  }

  /** A setting whose flag never occurs keeps its default. */
  lemma DefaultsKept(args: seq<string>, f: Flag)
    requires Options(args).Ok?
    requires forall j :: 0 <= j < |Options(args).value| ==> Options(args).value[j].flag != f
    ensures f == MaxRowGroupLength ==> ParseArgs(args).value.maxRowGroupLength == 1000000
    ensures f == Compression ==> ParseArgs(args).value.compression == "zstd"
    ensures f == SchemaFile ==> ParseArgs(args).value.schemaFile == ""
    ensures f == DateFields ==> ParseArgs(args).value.fields == []
  {
    ApplyAllKeeps(Defaults, Options(args).value, f);
  }

  // ---- steps of the loop

  /**
   * One recognised flag and its value: the scan goes on after them from the
   * updated settings. A step of ParseCommandLine's proof; the whole scan is
   * ParseArgs.
   */
  lemma ParseFromFlag(cfg: Config, args: seq<string>, o: Opt)
    requires |args| >= 2 && ParseFlag(args[0]) == Some(o.flag) && args[1] == o.value
    ensures ParseFrom(cfg, args) == ParseFrom(Apply(cfg, o), args[2..])
  {
  }

  /**
   * An argument that is no flag, or a flag with nothing after it, ends the
   * scan with an error. A step of ParseCommandLine's proof; StopsAtError and
   * ErrorStopsAt state where a whole scan stops.
   */
  lemma ParseFromStops(cfg: Config, args: seq<string>)
    requires args != [] && (ParseFlag(args[0]).None? || |args| == 1)
    ensures ParseFrom(cfg, args) == Err(UnknownArg(args[0]))
  {
  }

  /**
   * The inner `for (tok = strtok(...); tok; tok = strtok(nullptr, ...))`
   * loop: one `date32` field per token of `value`, appended in order.
   */
  method AppendDateFields(fields: seq<Field>, value: string) returns (out: seq<Field>)
    ensures out == fields + DateFieldsOf(SplitTokens(value, FieldSeparators))
  {
    out := fields;
    var rest := value;
    var tok := Strtok(rest, FieldSeparators);
    while tok.Some?
      invariant tok == Strtok(rest, FieldSeparators)
      invariant out + DateFieldsOf(SplitTokens(rest, FieldSeparators))
        == fields + DateFieldsOf(SplitTokens(value, FieldSeparators))
      decreases |rest|
    {
      var names := SplitTokens(rest, FieldSeparators);
      assert names == [tok.value.0] + SplitTokens(tok.value.1, FieldSeparators);
      assert DateFieldsOf(names) == [Field(tok.value.0, Date32)] + DateFieldsOf(names[1..]);
      out := out + [Field(tok.value.0, Date32)];
      rest := tok.value.1;
      tok := Strtok(rest, FieldSeparators);
    }
    assert DateFieldsOf(SplitTokens(rest, FieldSeparators)) == [];
  }

  /**
   * The argument loop of `main`, starting at `argv[1]`. Returns the error
   * for the argument at which `main` prints the usage text and returns -1.
   */
  method ParseCommandLine(argv: seq<string>) returns (r: Result<Config, ArgError>)
    ensures r == ParseArgs(if argv == [] then [] else argv[1..])
  {
    var maxRowGroupLength := DefaultMaxRowGroupLength;
    var compression := DefaultCompression;
    var fields: seq<Field> := [];
    var schemaFile := "";
    var i := 1;
    while i < |argv|
      invariant argv != [] ==> 1 <= i <= |argv|
      invariant argv == [] ==> i == 1 && Config(fields, maxRowGroupLength, compression, schemaFile) == Defaults
      invariant argv != [] ==>
        ParseFrom(Config(fields, maxRowGroupLength, compression, schemaFile), argv[i..]) == ParseArgs(argv[1..])
    {
      ghost var cfg := Config(fields, maxRowGroupLength, compression, schemaFile);
      ghost var args := argv[i..];
      ghost var o: Opt;
      if argv[i] == "--date-fields" && i < |argv| - 1 {
        i := i + 1;
        o := Opt(DateFields, argv[i]);
        fields := AppendDateFields(fields, argv[i]);
      } else if argv[i] == "--max-row-group-length" && i < |argv| - 1 {
        i := i + 1;
        o := Opt(MaxRowGroupLength, argv[i]);
        maxRowGroupLength := Atoi(argv[i]);
      } else if argv[i] == "--compression" && i < |argv| - 1 {
        i := i + 1;
        o := Opt(Compression, argv[i]);
        compression := argv[i];
      } else if argv[i] == "--schema-file" && i < |argv| - 1 {
        i := i + 1;
        o := Opt(SchemaFile, argv[i]);
        schemaFile := argv[i];
      } else {
        ParseFromStops(cfg, args);
        return Err(UnknownArg(argv[i]));
      }
      ParseFromFlag(cfg, args, o);
      assert Config(fields, maxRowGroupLength, compression, schemaFile) == Apply(cfg, o);
      assert args[2..] == argv[i + 1..];
      i := i + 1;
    }
    r := Ok(Config(fields, maxRowGroupLength, compression, schemaFile));
  }
}
