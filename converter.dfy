/**
 * What `main` does with the scanned settings: it collects the fields to
 * force (the `--date-fields` ones, then the schema file's), installs them
 * as the reader's explicit schema when there are any, offers every record
 * batch the reader produces to the Parquet writer, and returns 0 however
 * many writes fail. The JSON reader and the Parquet writer themselves are
 * not modelled: the batches and the writer's answers are given.
 */
module Converter {
  import opened Wrappers
  import opened Schema
  import opened CommandLine

  /**
   * The fields `main` collects, given the fields the schema file holds; the
   * schema file is read only when its name is not empty.
   */
  function CollectFields(cfg: Config, fileFields: seq<Field>): seq<Field> {
    cfg.fields + (if cfg.schemaFile == "" then [] else fileFields)
  }

  /** `parse_options.explicit_schema`: set to the collected fields unless there are none. */
  function ExplicitSchema(fields: seq<Field>): Option<seq<Field>> {
    if fields == [] then None else Some(fields)
  }

  /**
   * After a successful scan the collected fields are the `--date-fields`
   * tokens as `date32` fields in argument order, then the schema file's
   * fields in line order, duplicates kept.
   */
  lemma {:induction false} CollectedFields(args: seq<string>, opts: seq<Opt>, cfg: Config, fileFields: seq<Field>)
    requires Options(args) == Ok(opts) && ParseArgs(args) == Ok(cfg)
    ensures CollectFields(cfg, fileFields) ==
      DateFieldsOf(DateFieldNames(opts)) + (if cfg.schemaFile == "" then [] else fileFields)
  {
    assert cfg == ApplyAll(Defaults, opts);
    DateFieldsInOrder(Defaults, opts);
    assert cfg.fields == [] + DateFieldsOf(DateFieldNames(opts));
  }

  /**
   * An explicit schema is installed exactly when some `--date-fields` token
   * was given or a named schema file contributed a field, and it is then
   * the collected fields.
   */
  lemma {:induction false} ExplicitSchemaInstalled(args: seq<string>, opts: seq<Opt>, cfg: Config, fileFields: seq<Field>)
    requires Options(args) == Ok(opts) && ParseArgs(args) == Ok(cfg)
    ensures var schema := ExplicitSchema(CollectFields(cfg, fileFields));
      && (schema.Some? <==> DateFieldNames(opts) != [] || (cfg.schemaFile != "" && fileFields != []))
      && (schema.Some? ==> schema.value == CollectFields(cfg, fileFields))
  {
    CollectedFields(args, opts, cfg, fileFields);
  }

  /**
   * The `for (maybe_batch : *reader)` loop: every batch is offered to the
   * writer in order; a refused one only costs a "Cannot write" message.
   */
  method ForwardBatches<B>(batches: seq<B>, writeOk: seq<bool>) returns (offered: seq<B>, writeErrors: nat)
    requires |writeOk| == |batches|
    ensures offered == batches
    ensures writeErrors == multiset(writeOk)[false]
  {
    offered, writeErrors := [], 0;
    var i := 0;
    while i < |batches|
      invariant 0 <= i <= |batches|
      invariant offered == batches[..i]
      invariant writeErrors == multiset(writeOk[..i])[false]
    {
      offered := offered + [batches[i]];
      if !writeOk[i] {
        writeErrors := writeErrors + 1;
      }
      assert writeOk[..i + 1] == writeOk[..i] + [writeOk[i]];
      assert batches[..i + 1] == batches[..i] + [batches[i]];
      i := i + 1;
    }
    assert writeOk[..i] == writeOk;
    assert batches[..i] == batches;
  }

  /**
   * `main`, given its arguments, the schema file's lines, the batches the
   * reader produces and the writer's answer to each write and to Close.
   * `logged` counts the "Cannot write" and "Cannot close" messages.
   */
  method Run<B>(argv: seq<string>, schemaLines: seq<string>, batches: seq<B>, writeOk: seq<bool>, closeOk: bool)
    returns (status: int, schema: Option<seq<Field>>, offered: seq<B>, logged: nat)
    requires |writeOk| == |batches|
    ensures var parsed := ParseArgs(if argv == [] then [] else argv[1..]);
      && (parsed.Err? ==> status == UsageExitStatus && schema.None? && offered == [] && logged == 0)
      && (parsed.Ok? ==>
          && status == 0
          && schema == ExplicitSchema(CollectFields(parsed.value, SchemaFields(schemaLines)))
          && offered == batches
          && logged == multiset(writeOk)[false] + (if closeOk then 0 else 1))
  {
    var parsed := ParseCommandLine(argv);
    if parsed.Err? {
      return UsageExitStatus, None, [], 0;
    }
    var cfg := parsed.value;
    var fields := cfg.fields;
    if cfg.schemaFile != "" {
      fields := AppendSchemaFields(fields, schemaLines);
    }
    assert fields == CollectFields(cfg, SchemaFields(schemaLines));
    schema := ExplicitSchema(fields);
    offered, logged := ForwardBatches(batches, writeOk);
    if !closeOk {
      logged := logged + 1;
    }
    status := 0;
  }
}
