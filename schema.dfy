/**
 * The schema file given with `--schema-file`: one field per line, a field
 * name and a type name separated by `:`, blanks or the line's newline, and
 * the Arrow types those type names stand for.
 */
module Schema {
  import opened Wrappers
  import opened Tokenizer
  import opened Numeric

  /** The Arrow types a field can be given. */
  datatype DataType =
    | Date32
    | Int32
    | Int64
    | Float64
    | Decimal128(precision: int, scale: int)
      /** `decimal128(a, b)` where `sscanf` could not assign both `a` and `b`. */
    | Decimal128Unspecified

  datatype Field = Field(name: string, dtype: DataType)

  /** The delimiters the schema-file lines are cut with. */
  const SchemaDelims: set<char> := {':', ' ', '\n'}

  /** `strstr(s, sub) != NULL`. */
  predicate Contains(s: string, sub: string) {
    |s| >= |sub| && (s[..|sub|] == sub || Contains(s[1..], sub))
  }

  /**
   * `sscanf(t, "decimal(%d,%d)", &a, &b)` when it assigns both numbers; the
   * literal text of the format must match exactly, and nothing after the
   * second number is looked at.
   */
  function ScanDecimal(t: string): Option<(int, int)> {
    if |t| >= 8 && t[..8] == "decimal(" then
      match ScanInt(t[8..])
      case None => None
      case Some((a, r)) =>
        if r != [] && r[0] == ',' then
          match ScanInt(r[1..])
          case None => None
          case Some((b, _)) => Some((a, b))
        else None
    else None
  }

  /**
   * The type a schema-file type name stands for: the exact names are tested
   * first, then any name that contains `decimal` is a decimal; every other
   * name stands for nothing.
   */
  function ClassifyType(t: string): Option<DataType> {
    if t == "date" then Some(Date32)
    else if t == "int32" then Some(Int32)
    else if t == "int64" then Some(Int64)
    else if t == "double" then Some(Float64)
    else if Contains(t, "decimal") then
      match ScanDecimal(t)
      case Some((a, b)) => Some(Decimal128(a, b))
      case None => Some(Decimal128Unspecified)
    else None
  }

  /** How a schema file spells each type. */
  function TypeName(d: DataType): string {
    match d
    case Date32 => "date"
    case Int32 => "int32"
    case Int64 => "int64"
    case Float64 => "double"
    case Decimal128(a, b) => "decimal(" + (IntToString(a) + ("," + (IntToString(b) + ")")))
    case Decimal128Unspecified => "decimal"
  }

  /** One schema-file line: its first token is the name, its second the type; later tokens are ignored. */
  function ParseLine(line: string): Option<Field> {
    match Strtok(line, SchemaDelims)
    case None => None
    case Some((name, rest)) =>
      match Strtok(rest, SchemaDelims)
      case None => None
      case Some((ty, _)) =>
        match ClassifyType(ty)
        case None => None
        case Some(d) => Some(Field(name, d))
  }

  function LineFields(line: string): seq<Field> {
    match ParseLine(line)
    case None => []
    case Some(f) => [f]
  }

  /** The fields a schema file contributes, line by line in file order. */
  function SchemaFields(lines: seq<string>): seq<Field> {
    if lines == [] then [] else SchemaFields(lines[..|lines| - 1]) + LineFields(lines[|lines| - 1])
  }

  /** A schema-file line for `f`. */
  function FieldLine(f: Field): string {
    f.name + ": " + TypeName(f.dtype) + "\n"
  }

  function FieldLines(fs: seq<Field>): (r: seq<string>)
    ensures |r| == |fs|
  {
    if fs == [] then [] else FieldLines(fs[..|fs| - 1]) + [FieldLine(fs[|fs| - 1])]
  }

  /** A field name that survives being written to a schema file. */
  predicate WellFormedName(name: string) {
    name != [] && NoDelims(name, SchemaDelims)
  }

  lemma ContainsPrefix(s: string, sub: string)
    requires |s| >= |sub| && s[..|sub|] == sub
    ensures Contains(s, sub)
  {
  }

  /** After the literal `decimal(`, the format reads a number, a comma and a second number. */
  lemma ScanDecimalPrefixed(u: string)
    ensures ScanDecimal("decimal(" + u) ==
      match ScanInt(u)
      case None => None
      case Some((a, r)) =>
        if r != [] && r[0] == ',' then
          match ScanInt(r[1..])
          case None => None
          case Some((b, _)) => Some((a, b))
        else None
  {
    var t := "decimal(" + u;
    assert t[..8] == "decimal(";
    assert t[8..] == u;
  }

  lemma ScanDecimalOf(u: string, a: int, r: string, b: int, r2: string)
    requires ScanInt(u) == Some((a, r)) && r != [] && r[0] == ','
    requires ScanInt(r[1..]) == Some((b, r2))
    ensures ScanDecimal("decimal(" + u) == Some((a, b))
  {
    ScanDecimalPrefixed(u);
  }

  lemma {:induction false} ScanDecimalName(a: int, b: int)
    ensures ScanDecimal(TypeName(Decimal128(a, b))) == Some((a, b))
  {
    var sa, sb := IntToString(a), IntToString(b);
    var tail := "," + (sb + ")");
    ScanIntOfIntToString(a, tail);
    ScanIntOfIntToString(b, ")");
    ScanDecimalOf(sa + tail, a, tail, b, ")");
  }

  lemma {:induction false} ClassifyDecimalName(a: int, b: int)
    ensures ClassifyType(TypeName(Decimal128(a, b))) == Some(Decimal128(a, b))
  {
    var t := TypeName(Decimal128(a, b));
    assert |t| > 6 && t[..7] == "decimal";
    ContainsPrefix(t, "decimal");
    ScanDecimalName(a, b);
  }

  /** A schema-file type name is read back as the type it names. */
  lemma {:induction false} ClassifyTypeName(d: DataType)
    ensures ClassifyType(TypeName(d)) == Some(d)
  {
    match d
    case Decimal128(a, b) =>
      ClassifyDecimalName(a, b);
    case Decimal128Unspecified =>
      ContainsPrefix("decimal", "decimal");
    case _ =>
  }

  /** Any type name that is not one of the four exact names and holds no `decimal` adds no field. */
  lemma ClassifyTypeUnknown(t: string)
    ensures ClassifyType(t).None? <==> t != "date" && t != "int32" && t != "int64" && t != "double" && !Contains(t, "decimal")
  {
  }

  /** ParseLine looks at the first two `strtok` tokens of the line exactly. */
  lemma ParseLineTokens(line: string)
    ensures var toks := SplitTokens(line, SchemaDelims);
      ParseLine(line) ==
        if |toks| < 2 then None
        else match ClassifyType(toks[1])
          case None => None
          case Some(d) => Some(Field(toks[0], d))
  {
    var first := Strtok(line, SchemaDelims);
    if first.Some? {
      var second := Strtok(first.value.1, SchemaDelims);
      assert SplitTokens(line, SchemaDelims) == [first.value.0] + SplitTokens(first.value.1, SchemaDelims);
      if second.Some? {
        assert SplitTokens(first.value.1, SchemaDelims)
          == [second.value.0] + SplitTokens(second.value.1, SchemaDelims);
      }
    }
  }

  lemma {:induction false} IntToStringNoDelims(x: int)
    ensures NoDelims(IntToString(x), SchemaDelims)
  {
    var p := NatToString(if x < 0 then -x else x);
    assert forall k :: 0 <= k < |p| ==> IsDigit(p[k]);
  }

  lemma {:induction false} TypeNameNoDelims(d: DataType)
    ensures TypeName(d) != [] && NoDelims(TypeName(d), SchemaDelims)
  {
    if d.Decimal128? {
      IntToStringNoDelims(d.precision);
      IntToStringNoDelims(d.scale);
      var sa, sb := IntToString(d.precision), IntToString(d.scale);
      var t := TypeName(d);
      forall k | 0 <= k < |t| ensures t[k] !in SchemaDelims {
        if 8 <= k < 8 + |sa| {
          assert t[k] == sa[k - 8];
        } else if 9 + |sa| <= k < 9 + |sa| + |sb| {
          assert t[k] == sb[k - 9 - |sa|];
        }
      }
    }
  }

  /** A type name followed by the newline, after one blank, is one token. */
  lemma {:induction false} TypeNameTokens(d: DataType)
    ensures SplitTokens(" " + (TypeName(d) + "\n"), SchemaDelims) == [TypeName(d)]
  {
    var t := TypeName(d);
    assert SplitTokens(t + "\n", SchemaDelims) == [t] by {
      TypeNameNoDelims(d);
      SplitSingleRun(t, SchemaDelims);
      SplitAtDelimiter(t, '\n', [], SchemaDelims);
      assert t + ['\n'] + [] == t + "\n";
    }
    assert SplitTokens(" " + (t + "\n"), SchemaDelims) == SplitTokens(t + "\n", SchemaDelims) by {
      SplitAtDelimiter([], ' ', t + "\n", SchemaDelims);
      assert [] + [' '] + (t + "\n") == " " + (t + "\n");
    }
  }

  /** The `strtok` tokens of a field's line are its name and its type name. */
  lemma {:induction false} FieldLineTokens(f: Field)
    requires WellFormedName(f.name)
    ensures SplitTokens(FieldLine(f), SchemaDelims) == [f.name, TypeName(f.dtype)]
  {
    var rest := " " + (TypeName(f.dtype) + "\n");
    assert FieldLine(f) == f.name + [':'] + rest;
    assert SplitTokens(f.name + [':'] + rest, SchemaDelims) == SplitTokens(f.name, SchemaDelims) + SplitTokens(rest, SchemaDelims) by {
      SplitAtDelimiter(f.name, ':', rest, SchemaDelims);
    }
    assert SplitTokens(f.name, SchemaDelims) == [f.name] by {
      SplitSingleRun(f.name, SchemaDelims);
    }
    assert SplitTokens(rest, SchemaDelims) == [TypeName(f.dtype)] by {
      TypeNameTokens(f.dtype);
    }
  }

  /** Writing a field as a schema-file line and parsing the line gives the field back. */
  lemma {:induction false} ParseFieldLine(f: Field)
    requires WellFormedName(f.name)
    ensures ParseLine(FieldLine(f)) == Some(f)
  {
    FieldLineTokens(f);
    ParseLineTokens(FieldLine(f));
    ClassifyTypeName(f.dtype);
  }

  lemma {:induction false} LineFieldsOfFieldLine(f: Field)
    requires WellFormedName(f.name)
    ensures LineFields(FieldLine(f)) == [f]
  {
    ParseFieldLine(f);
  }

  /** The fields of two concatenated files are the fields of the first followed by those of the second. */
  lemma {:induction false} SchemaFieldsConcat(a: seq<string>, b: seq<string>)
    ensures SchemaFields(a + b) == SchemaFields(a) + SchemaFields(b)
    decreases |b|
  {
    if b == [] {
      assert a + b == a;
    } else {
      var b', last := b[..|b| - 1], b[|b| - 1];
      SchemaFieldsConcat(a, b');
      ConcatInit(a, b);
      assert SchemaFields(a + b) == SchemaFields(a + b') + LineFields(last);
      ConcatAssoc(SchemaFields(a), SchemaFields(b'), LineFields(last));
    }
  }

  lemma ConcatInit<T>(a: seq<T>, b: seq<T>)
    requires b != []
    ensures (a + b)[..|a + b| - 1] == a + b[..|b| - 1] && (a + b)[|a + b| - 1] == b[|b| - 1]
  {
  }

  lemma InitLast<T>(s: seq<T>)
    requires s != []
    ensures s[..|s| - 1] + [s[|s| - 1]] == s
  {
  }

  /** A schema file written from well-formed fields is read back as those fields, duplicates and order kept. */
  lemma {:induction false} SchemaFieldsOfFieldLines(fs: seq<Field>)
    requires forall i :: 0 <= i < |fs| ==> WellFormedName(fs[i].name)
    ensures SchemaFields(FieldLines(fs)) == fs
  {
    if fs != [] {
      var init, last := fs[..|fs| - 1], fs[|fs| - 1];
      forall i | 0 <= i < |init| ensures WellFormedName(init[i].name) {
        assert init[i] == fs[i];
      }
      SchemaFieldsOfFieldLines(init);
      LineFieldsOfFieldLine(last);
      var lines := FieldLines(fs);
      assert lines == FieldLines(init) + [FieldLine(last)];
      assert lines[..|lines| - 1] == FieldLines(init);
      assert SchemaFields(lines) == SchemaFields(FieldLines(init)) + LineFields(FieldLine(last));
      InitLast(fs);
    }
  }

  /** At most one field per line, and every field comes from a line of the file. */
  lemma {:induction false} SchemaFieldsFromLines(lines: seq<string>)
    ensures |SchemaFields(lines)| <= |lines|
    ensures forall i :: 0 <= i < |SchemaFields(lines)| ==>
      exists j :: 0 <= j < |lines| && ParseLine(lines[j]) == Some(SchemaFields(lines)[i])
  {
    if lines != [] {
      var init := lines[..|lines| - 1];
      SchemaFieldsFromLines(init);
      var r := SchemaFields(lines);
      assert r == SchemaFields(init) + LineFields(lines[|lines| - 1]);
      forall i | 0 <= i < |r|
        ensures exists j :: 0 <= j < |lines| && ParseLine(lines[j]) == Some(r[i])
      {
        if i < |SchemaFields(init)| {
          var j :| 0 <= j < |init| && ParseLine(init[j]) == Some(SchemaFields(init)[i]);
          assert lines[j] == init[j];
        } else {
          assert ParseLine(lines[|lines| - 1]) == Some(r[i]);
        }
      }
    }
  }

  lemma SchemaFieldsStep(lines: seq<string>, i: nat)
    requires i < |lines|
    ensures SchemaFields(lines[..i + 1]) == SchemaFields(lines[..i]) + LineFields(lines[i])
  {
    assert lines[..i + 1][..i] == lines[..i];
  }

  /**
   * The `while (fgets(...))` loop: cuts each line with `strtok`, skips lines
   * with fewer than two tokens, and appends a field for every recognised
   * type name to `fields`.
   */
  method AppendSchemaFields(fields: seq<Field>, lines: seq<string>) returns (out: seq<Field>)
    ensures out == fields + SchemaFields(lines)
  {
    out := fields;
    var i := 0;
    while i < |lines|
      invariant 0 <= i <= |lines|
      invariant out == fields + SchemaFields(lines[..i])
    {
      var line := lines[i];
      SchemaFieldsStep(lines, i);
      i := i + 1;
      var field := Strtok(line, SchemaDelims);
      if field.None? {
        assert LineFields(line) == [];
        continue;
      }
      var ty := Strtok(field.value.1, SchemaDelims);
      if ty.None? {
        assert LineFields(line) == [];
        continue;
      }
      var name, tname := field.value.0, ty.value.0;
      assert LineFields(line) == match ClassifyType(tname) case None => [] case Some(d) => [Field(name, d)];
      var d := ClassifyType(tname);
      if d.Some? {
        out := out + [Field(name, d.value)];
      }
    }
    assert lines[..i] == lines;
  }
}
