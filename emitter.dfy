/**
 * The Go backend's generation context: five passes that fill the constants,
 * vars, types, helpers and methods buffers in turn, and the pipeline that
 * runs them and then hands every filled buffer to the file writer, in that
 * order. `Generate` states the whole outcome as one function; the class
 * `GoGenerationContext` is the step-by-step emitter proved against it.
 */
module GoEmitter {
  import opened Wrappers
  import opened Schema
  import opened GoText
  import opened Codec
  import opened GoTypes

  /** The generator options: the Go package name, the output directory and the parsed definition. */
  datatype Options = Options(packageName: string, outputPath: string, definition: Definition)

  /**
   * The backend's own constants, which live outside the emitter: the type
   * catalog, the language name put into errors, the path separator of the
   * host, and the five output file names.
   */
  datatype Backend = Backend(
    catalog: Catalog,
    languageName: string,
    pathSeparator: char,
    constantsFile: string,
    varsFile: string,
    typesFile: string,
    helpersFile: string,
    methodsFile: string)

  // ------------------------------------------------------------ the constants file

  const ModelIdPrefix := "\tModelId"

  /** `ModelId<Name> = <id>`, one per model. */
  function ConstantLine(m: Model): string
  {
    ModelIdPrefix + m.name + " = " + Decimal(m.modelId)
  }

  function ModelIdLines(ms: seq<Model>): seq<string>
  {
    seq(|ms|, i requires 0 <= i < |ms| => ConstantLine(ms[i]))
  }

  function ConstantsLines(pkg: string, ms: seq<Model>): seq<string>
  {
    HeaderLines(pkg) + ["const ("] + ModelIdLines(ms) + [")"]
  }

  /** A reader of the constants file: the model name and id a `ModelId` line declares. */
  function ParseConstantLine(line: string): Option<(string, nat)>
  {
    if |line| < |ModelIdPrefix| || line[..|ModelIdPrefix|] != ModelIdPrefix then None
    else
      var body := line[|ModelIdPrefix|..];
      var k := DigitRunStart(body);
      if k == |body| || k < 3 || body[k - 3..k] != " = " then None
      else Some((body[..k - 3], ParseDecimal(body[k..])))
  }

  /** Every constant line reads back as the model's name and id, whatever characters the name holds. */
  lemma ConstantLineParses(m: Model)
    ensures ParseConstantLine(ConstantLine(m)) == Some((m.name, m.modelId))
  {
    var d := Decimal(m.modelId);
    var line := ConstantLine(m);
    var a := m.name + " = ";
    assert line == ModelIdPrefix + (a + d);
    assert line[..|ModelIdPrefix|] == ModelIdPrefix;
    var body := line[|ModelIdPrefix|..];
    assert body == a + d;
    DigitRunAfter(a, d);
    assert body[|a| - 3..|a|] == " = ";
    assert body[..|a| - 3] == m.name;
    assert body[|a|..] == d;
    DecimalRoundTrip(m.modelId);
  }

  /** No line of the banner, the package clause or the block delimiters reads as a constant. */
  lemma OtherLinesDoNotParse(pkg: string)
    ensures forall k :: 0 <= k < |HeaderLines(pkg)| ==> ParseConstantLine(HeaderLines(pkg)[k]).None?
    ensures ParseConstantLine("const (").None? && ParseConstantLine(")").None?
  {
    assert Banner[0] == '/';
    assert ("package " + pkg)[0] == 'p';
    assert "const ("[0] == 'c';
  }

  lemma ConstantsOneLine(pkg: string, ms: seq<Model>)
    requires OneLine(pkg)
    requires forall i :: 0 <= i < |ms| ==> OneLine(ms[i].name)
    ensures AllOneLine(ConstantsLines(pkg, ms))
  {
    var hl := HeaderLines(pkg);
    var ml := ModelIdLines(ms);
    HeaderShape(pkg);
    assert AllOneLine(ml) by {
      forall i | 0 <= i < |ms|
        ensures OneLine(ml[i])
      {
        assert '\n' !in ModelIdPrefix && '\n' !in " = ";
        assert AllDigits(Decimal(ms[i].modelId));
      }
    }
    AllOneLineAppend(hl, ["const ("]);
    AllOneLineAppend(hl + ["const ("], ml);
    AllOneLineAppend(hl + ["const ("] + ml, [")"]);
  }

  /** Exactly the lines between `const (` and `)` declare constants, one per model in order. */
  lemma ConstantsLinesParse(pkg: string, ms: seq<Model>)
    ensures var ls := ConstantsLines(pkg, ms);
      |ls| == |ms| + 6 && ls[4] == "const (" && ls[|ms| + 5] == ")" &&
      (forall k :: 0 <= k < |ls| ==> (ParseConstantLine(ls[k]).Some? <==> 5 <= k < |ms| + 5)) &&
      (forall i :: 0 <= i < |ms| ==> ParseConstantLine(ls[5 + i]) == Some((ms[i].name, ms[i].modelId)))
  {
    var hl := HeaderLines(pkg);
    var ls := ConstantsLines(pkg, ms);
    OtherLinesDoNotParse(pkg);
    forall k | 0 <= k < |ls|
      ensures ParseConstantLine(ls[k]).Some? <==> 5 <= k < |ms| + 5
      ensures 5 <= k < |ms| + 5 ==> ParseConstantLine(ls[k]) == Some((ms[k - 5].name, ms[k - 5].modelId))
    {
      if k < 4 {
        assert ls[k] == hl[k];
      } else if k < |ms| + 5 && k >= 5 {
        assert ls[k] == ConstantLine(ms[k - 5]);
        ConstantLineParses(ms[k - 5]);
      }
    }
  }

  /**
   * Read back line by line, the constants file is the header, one `const (`
   * line, then exactly one line per model in definition order declaring that
   * model's name and id, and a closing `)`; no other line declares a constant.
   */
  lemma ConstantsFile(pkg: string, ms: seq<Model>)
    requires OneLine(pkg)
    requires forall i :: 0 <= i < |ms| ==> OneLine(ms[i].name)
    ensures var ls := SplitLines(Unlines(ConstantsLines(pkg, ms)));
      |ls| == |ms| + 6 && ls[4] == "const (" && ls[|ms| + 5] == ")" &&
      (forall k :: 0 <= k < |ls| ==> (ParseConstantLine(ls[k]).Some? <==> 5 <= k < |ms| + 5)) &&
      (forall i :: 0 <= i < |ms| ==> ParseConstantLine(ls[5 + i]) == Some((ms[i].name, ms[i].modelId)))
  {
    ConstantsOneLine(pkg, ms);
    SplitUnlines(ConstantsLines(pkg, ms));
    ConstantsLinesParse(pkg, ms);
  }

  // ------------------------------------------------------------ the methods file

  /** One field as the serializer and deserializer bodies handle it. */
  datatype FieldStep = FieldStep(fieldName: string, strategy: Strategy)

  /**
   * The methods emitted for one model: `GetModelId`, `CloneEmpty`,
   * `CloneEmptySerializable`, and the `SerializeBinary` and
   * `DeserializeBinary` bodies as their per-field steps in field order.
   */
  datatype ModelMethods = ModelMethods(
    modelName: string,
    serializeSteps: seq<FieldStep>,
    deserializeSteps: seq<FieldStep>)

  /** The methods file: the package clause and the methods of every model in definition order. */
  datatype MethodsCode = MethodsCode(packageName: string, models: seq<ModelMethods>)

  function FieldSteps(def: Definition, cat: Catalog, fs: seq<Field>): seq<FieldStep>
  {
    seq(|fs|, j requires 0 <= j < |fs| => FieldStep(fs[j].name, PlanField(def, cat, fs[j])))
  }

  function MethodsOf(def: Definition, cat: Catalog, m: Model): ModelMethods
  {
    ModelMethods(m.name, FieldSteps(def, cat, m.fields), FieldSteps(def, cat, m.fields))
  }

  function AllMethods(pkg: string, def: Definition, cat: Catalog): MethodsCode
  {
    MethodsCode(pkg, seq(|def.models|, i requires 0 <= i < |def.models| => MethodsOf(def, cat, def.models[i])))
  }

  // ------------------------------------------------------------ the whole pipeline

  datatype Content = Source(text: string) | Methods(code: MethodsCode)

  /** One file handed to the writer: its path and what goes into it. */
  datatype OutputFile = OutputFile(path: string, content: Content)

  datatype GenError =
    | MissingPackageName
    | Unsupported(error: UnsupportedFieldTypeError)

  /** The files `GenerateCode` writes, in order, or the error it returns instead of writing any. */
  function Generate(opts: Options, be: Backend): Result<seq<OutputFile>, GenError>
  {
    var pkg, def := opts.packageName, opts.definition;
    if pkg == "" then Err(MissingPackageName)
    else
      var (typesText, e) := TypesPass(pkg, def, be.catalog, be.languageName);
      if e.Some? then Err(Unsupported(e.value))
      else
        var dir := opts.outputPath + [be.pathSeparator];
        Ok([OutputFile(dir + be.constantsFile, Source(Unlines(ConstantsLines(pkg, def.models)))),
            OutputFile(dir + be.varsFile, Source(Unlines(HeaderLines(pkg)))),
            OutputFile(dir + be.typesFile, Source(typesText)),
            OutputFile(dir + be.helpersFile, Source(Unlines(HeaderLines(pkg)))),
            OutputFile(dir + be.methodsFile, Methods(AllMethods(pkg, def, be.catalog)))])
  }

  /**
   * The pipeline fails exactly when the package name is empty or some field
   * type is unsupported, reporting the first such field; otherwise it
   * writes five files under the output directory, constants, vars, types,
   * helpers and methods in that order, the types file declaring every model
   * in order.
   */
  lemma GenerateOutcome(opts: Options, be: Backend)
    ensures var r := Generate(opts, be);
      var def, cat, lang := opts.definition, be.catalog, be.languageName;
      (r.Err? <==> opts.packageName == "" || !AllResolve(def, cat, lang, def.models)) &&
      (opts.packageName == "" ==> r == Err(MissingPackageName)) &&
      (opts.packageName != "" && !AllResolve(def, cat, lang, def.models) ==>
        exists i, j :: FirstUnresolved(def, cat, lang, def.models, i, j) &&
          r == Err(Unsupported(UnsupportedFieldTypeError(
            def.models[i].fields[j].typeName, def.models[i].fields[j].name, def.models[i].name, lang))))
    ensures var r := Generate(opts, be);
      var dir := opts.outputPath + [be.pathSeparator];
      r.Ok? ==>
        |r.value| == 5 &&
        r.value[0].path == dir + be.constantsFile &&
        r.value[1].path == dir + be.varsFile &&
        r.value[2].path == dir + be.typesFile &&
        r.value[3].path == dir + be.helpersFile &&
        r.value[4].path == dir + be.methodsFile &&
        r.value[0].content == Source(Unlines(ConstantsLines(opts.packageName, opts.definition.models))) &&
        r.value[4].content == Methods(AllMethods(opts.packageName, opts.definition, be.catalog)) &&
        AllResolve(opts.definition, be.catalog, be.languageName, opts.definition.models) &&
        r.value[2].content == Source(Unlines(
          HeaderLines(opts.packageName) + ImportLines(opts.definition, be.catalog) + InterfaceLines +
          Concat(StructDecls(opts.definition, be.catalog, be.languageName, opts.definition.models))))
  {
    var def, cat, lang := opts.definition, be.catalog, be.languageName;
    if opts.packageName != "" {
      TypesPassError(opts.packageName, def, cat, lang);
      if AllResolve(def, cat, lang, def.models) {
        StructLinesOk(def, cat, lang, def.models);
      }
    }
  }
}
