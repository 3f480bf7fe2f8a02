/**
 * `GoGenerationContext`, the Go backend's generation state: the options it
 * was created with and one buffer per output file, which the five passes
 * fill one at a time and `GenerateCode` hands to the file writer.
 */
module GoGeneration {
  import opened Wrappers
  import opened Schema
  import opened GoText
  import opened Codec
  import opened GoTypes
  import opened GoEmitter

  /** Is field `j` of model `i` strictly before position (`i0`, `j0`) in model then field order? */
  predicate Before(ms: seq<Model>, i: int, j: int, i0: int, j0: int)
  {
    0 <= i < |ms| && 0 <= j < |ms[i].fields| && (i < i0 || (i == i0 && j < j0))
  }

  /**
   * The scan over every field of every model that records which packages
   * the types file imports: `"time"`, marked true, once a DateTime field is seen.
   */
  method NeededImports(def: Definition, cat: Catalog) returns (needed: map<string, bool>)
    ensures needed == if HasDateTimeField(def, cat) then map["time" := true] else map[]
  {
    var ms := def.models;
    needed := map[];
    var i := 0;
    while i < |ms|
      invariant 0 <= i <= |ms|
      invariant needed == if exists i', j' :: Before(ms, i', j', i, 0) && ms[i'].fields[j'].typeName == cat.dateTimeType
        then map["time" := true] else map[]
    {
      var fs := ms[i].fields;
      var j := 0;
      while j < |fs|
        invariant 0 <= j <= |fs|
        invariant needed == if exists i', j' :: Before(ms, i', j', i, j) && ms[i'].fields[j'].typeName == cat.dateTimeType
          then map["time" := true] else map[]
      {
        if fs[j].typeName == cat.dateTimeType {
          var seen := "time" in needed && needed["time"];
          if !seen {
            needed := needed["time" := true];
          }
          assert Before(ms, i, j, i, j + 1);
        }
        j := j + 1;
      }
      assert forall i', j' :: Before(ms, i', j', i + 1, 0) <==> Before(ms, i', j', i, |fs|);
      i := i + 1;
    }
    assert forall i', j' :: Before(ms, i', j', |ms|, 0) <==>
      0 <= i' < |ms| && 0 <= j' < |ms[i'].fields|;
  }

  /** The import block for the packages collected, each on its line, in whatever order the map yields them. */
  method ImportBlock(needed: map<string, bool>) returns (text: string)
    requires needed.Keys <= {"time"}
    ensures text == if |needed| > 0 then Unlines(["import (", TimeImport, ")", ""]) else ""
  {
    text := "";
    if |needed| > 0 {
      assert "time" in needed;
      text := "import (\n";
      var pending := needed.Keys;
      while pending != {}
        invariant pending <= {"time"}
        invariant text == if "time" in pending then "import (\n" else "import (\n" + TimeImport + "\n"
        decreases |pending|
      {
        var name :| name in pending;
        text := text + "\t\"" + name + "\"\n";
        pending := pending - {name};
      }
      text := text + ")\n\n";
      var u := Unlines(["import (", TimeImport, ")", ""]);
      assert Unlines([""]) == "\n" by {
        assert [""][1..] == [];
      }
      assert Unlines([")", ""]) == ")\n\n" by {
        assert [")", ""][1..] == [""];
      }
      assert Unlines([TimeImport, ")", ""]) == TimeImport + "\n" + ")\n\n" by {
        assert [TimeImport, ")", ""][1..] == [")", ""];
      }
      assert ["import (", TimeImport, ")", ""][1..] == [TimeImport, ")", ""];
      assert u == "import (\n" + (TimeImport + "\n") + ")\n\n";
    }
  }

  /**
   * The Go type of one field of model `modelName`: the primitive table
   * first, then a pointer to the model of that name, `[]` in front for an
   * array; a type that resolves neither way is the error.
   */
  method FieldGoType(def: Definition, cat: Catalog, lang: string, modelName: string, f: Field)
    returns (r: Result<string, UnsupportedFieldTypeError>)
    ensures r == ResolveGoType(def, cat, lang, modelName, f)
  {
    var goType: string;
    var custom := GetModelByName(def, f.typeName);
    if f.typeName in cat.goTypes {
      goType := cat.goTypes[f.typeName];
    } else {
      if custom.None? {
        return Err(UnsupportedFieldTypeError(f.typeName, f.name, modelName, lang));
      }
      goType := "*" + custom.value.name;
    }
    ghost var base := goType;
    if f.isArray {
      goType := "[]" + goType;
    }
    assert goType == ArrayPrefix(f) + base;
    if f.typeName !in cat.goTypes {
      assert base == "*" + f.typeName;
      assert ArrayPrefix(f) + "*" + f.typeName == ArrayPrefix(f) + ("*" + f.typeName);
    }
    r := Ok(goType);
  }

  /**
   * The field lines of one struct, in field order; at the first field whose
   * type does not resolve the lines written so far are returned with the error.
   */
  method WriteFields(def: Definition, cat: Catalog, lang: string, modelName: string, fs: seq<Field>)
    returns (text: string, err: Option<UnsupportedFieldTypeError>)
    ensures text == Unlines(FieldLines(def, cat, lang, modelName, fs).0)
    ensures err == FieldLines(def, cat, lang, modelName, fs).1
  {
    text := "";
    err := None;
    ghost var lines: seq<string> := [];
    var j := 0;
    while j < |fs|
      invariant 0 <= j <= |fs|
      invariant FieldLines(def, cat, lang, modelName, fs[..j]) == (lines, None)
      invariant text == Unlines(lines)
    {
      var f := fs[j];
      FieldLinesNext(def, cat, lang, modelName, fs, j);
      var t := FieldGoType(def, cat, lang, modelName, f);
      if t.Err? {
        err := Some(t.error);
        FieldLinesStop(def, cat, lang, modelName, fs, j + 1);
        return;
      }
      UnlinesSnoc(lines, FieldLine(f.name, t.value));
      lines := lines + [FieldLine(f.name, t.value)];
      text := text + ("\t" + f.name + " " + t.value + "\n");
      j := j + 1;
    }
    assert fs[..j] == fs;
  }

  /**
   * The struct declarations, model by model, each opened, given its field
   * lines and closed; at the first unsupported field the text written so
   * far, the open struct included, is returned with the error.
   */
  method WriteStructs(def: Definition, cat: Catalog, lang: string, ms: seq<Model>)
    returns (text: string, err: Option<UnsupportedFieldTypeError>)
    ensures text == Unlines(StructLines(def, cat, lang, ms).0)
    ensures err == StructLines(def, cat, lang, ms).1
  {
    text := "";
    err := None;
    ghost var lines: seq<string> := [];
    var i := 0;
    while i < |ms|
      invariant 0 <= i <= |ms|
      invariant StructLines(def, cat, lang, ms[..i]) == (lines, None)
      invariant text == Unlines(lines)
    {
      var m := ms[i];
      StructLinesNext(def, cat, lang, ms, i);
      UnlinesSnoc(lines, StructOpen(m.name));
      text := text + ("type " + m.name + " struct {" + "\n");
      var ft, fe := WriteFields(def, cat, lang, m.name, m.fields);
      ghost var fl := FieldLines(def, cat, lang, m.name, m.fields).0;
      UnlinesAppend(lines + [StructOpen(m.name)], fl);
      text := text + ft;
      if fe.Some? {
        err := fe;
        StructLinesStop(def, cat, lang, ms, i + 1);
        return;
      }
      UnlinesAppend(lines + [StructOpen(m.name)] + fl, ["}", ""]);
      UnlinesPair("}", "");
      lines := lines + [StructOpen(m.name)] + fl + ["}", ""];
      text := text + "}\n\n";
      i := i + 1;
    }
    assert ms[..i] == ms;
  }

  /** The per-field steps of the serializer or deserializer body, with the branch order of the emitter. */
  method PlanSteps(def: Definition, cat: Catalog, fs: seq<Field>) returns (steps: seq<FieldStep>)
    ensures steps == FieldSteps(def, cat, fs)
  {
    steps := [];
    var j := 0;
    while j < |fs|
      invariant 0 <= j <= |fs|
      invariant steps == FieldSteps(def, cat, fs[..j])
    {
      var f := fs[j];
      var custom := GetModelByName(def, f.typeName);
      var s: Strategy;
      if f.typeName == cat.stringType {
        s := Text;
      } else if f.typeName == cat.bytesType {
        s := Blob;
      } else if f.typeName == cat.dateTimeType {
        s := Timestamp;
      } else if f.isArray {
        s := if custom.Some? then NestedArray(custom.value) else ScalarArray(f.typeName);
      } else if custom.Some? {
        s := Nested(custom.value);
      } else {
        s := Scalar(f.typeName);
      }
      assert s == PlanField(def, cat, f);
      assert FieldSteps(def, cat, fs[..j + 1]) == FieldSteps(def, cat, fs[..j]) + [FieldStep(f.name, s)];
      steps := steps + [FieldStep(f.name, s)];
      j := j + 1;
    }
    assert fs[..j] == fs;
  }

  class GoGenerationContext {
    const options: Options
    const backend: Backend
    var constantsCode: Option<string>
    var varsCode: Option<string>
    var typesCode: Option<string>
    var helpersCode: Option<string>
    var methodsCode: Option<MethodsCode>

    /** A fresh context: every buffer is still unset. */
    constructor(options: Options, backend: Backend)
      ensures this.options == options && this.backend == backend
      ensures constantsCode.None? && varsCode.None? && typesCode.None? && helpersCode.None? && methodsCode.None?
    {
      this.options := options;
      this.backend := backend;
      constantsCode := None;
      varsCode := None;
      typesCode := None;
      helpersCode := None;
      methodsCode := None;
    }

    /** The header, then `const (`, one `ModelId` line per model in order, and `)`. */
    method GenerateConstants()
      modifies this
      ensures constantsCode == Some(Unlines(ConstantsLines(options.packageName, options.definition.models)))
      ensures varsCode == old(varsCode) && typesCode == old(typesCode)
      ensures helpersCode == old(helpersCode) && methodsCode == old(methodsCode)
    {
      var pkg, ms := options.packageName, options.definition.models;
      var pre := HeaderLines(pkg) + ["const ("];
      HeaderText(pkg);
      UnlinesSnoc(HeaderLines(pkg), "const (");
      constantsCode := Some(Banner + "\n\n" + ("package " + pkg + "\n\n") + ("const (" + "\n"));
      assert pre + ModelIdLines(ms[..0]) == pre;
      var i := 0;
      while i < |ms|
        invariant 0 <= i <= |ms|
        invariant constantsCode == Some(Unlines(pre + ModelIdLines(ms[..i])))
        invariant varsCode == old(varsCode) && typesCode == old(typesCode)
        invariant helpersCode == old(helpersCode) && methodsCode == old(methodsCode)
      {
        assert ModelIdLines(ms[..i + 1]) == ModelIdLines(ms[..i]) + [ConstantLine(ms[i])];
        UnlinesSnoc(pre + ModelIdLines(ms[..i]), ConstantLine(ms[i]));
        assert pre + ModelIdLines(ms[..i]) + [ConstantLine(ms[i])] == pre + ModelIdLines(ms[..i + 1]);
        constantsCode := Some(constantsCode.value + (ModelIdPrefix + ms[i].name + " = " + Decimal(ms[i].modelId) + "\n"));
        i := i + 1;
      }
      assert ms[..i] == ms;
      UnlinesSnoc(pre + ModelIdLines(ms), ")");
      constantsCode := Some(constantsCode.value + (")" + "\n"));
    }

    /** The vars file holds only the header. */
    method GenerateVars()
      modifies this
      ensures varsCode == Some(Unlines(HeaderLines(options.packageName)))
      ensures constantsCode == old(constantsCode) && typesCode == old(typesCode)
      ensures helpersCode == old(helpersCode) && methodsCode == old(methodsCode)
    {
      HeaderText(options.packageName);
      varsCode := Some(Banner + "\n\n" + ("package " + options.packageName + "\n\n"));
    }

    /**
     * The header, the `time` import when a DateTime field exists, the
     * `Serializable` interface and the struct declarations; on an
     * unsupported field type the buffer keeps what was written before it.
     */
    method GenerateTypes() returns (err: Option<UnsupportedFieldTypeError>)
      modifies this
      ensures var (text, e) := TypesPass(options.packageName, options.definition, backend.catalog, backend.languageName);
        typesCode == Some(text) && err == e
      ensures constantsCode == old(constantsCode) && varsCode == old(varsCode)
      ensures helpersCode == old(helpersCode) && methodsCode == old(methodsCode)
    {
      var pkg, def, cat, lang := options.packageName, options.definition, backend.catalog, backend.languageName;
      HeaderText(pkg);
      var b := Banner + "\n\n";
      b := b + ("package " + pkg + "\n\n");
      var needed := NeededImports(def, cat);
      var imports := ImportBlock(needed);
      b := b + imports;
      b := b + Unlines(InterfaceLines);
      var structs, e := WriteStructs(def, cat, lang, def.models);
      b := b + structs;
      TypesPassText(pkg, def, cat, lang);
      typesCode := Some(b);
      err := e;
    }

    /** The helpers file holds only the header. */
    method GenerateHelpers()
      modifies this
      ensures helpersCode == Some(Unlines(HeaderLines(options.packageName)))
      ensures constantsCode == old(constantsCode) && varsCode == old(varsCode)
      ensures typesCode == old(typesCode) && methodsCode == old(methodsCode)
    {
      HeaderText(options.packageName);
      helpersCode := Some(Banner + "\n\n" + ("package " + options.packageName + "\n\n"));
    }

    /** The methods of every model in order, each body's steps in field order. */
    method GenerateMethods()
      modifies this
      ensures methodsCode == Some(AllMethods(options.packageName, options.definition, backend.catalog))
      ensures constantsCode == old(constantsCode) && varsCode == old(varsCode)
      ensures typesCode == old(typesCode) && helpersCode == old(helpersCode)
    {
      var def, cat := options.definition, backend.catalog;
      var ms := def.models;
      methodsCode := Some(MethodsCode(options.packageName, []));
      var i := 0;
      while i < |ms|
        invariant 0 <= i <= |ms|
        invariant methodsCode.Some? && methodsCode.value.packageName == options.packageName
        invariant |methodsCode.value.models| == i
        invariant forall k :: 0 <= k < i ==> methodsCode.value.models[k] == MethodsOf(def, cat, ms[k])
        invariant constantsCode == old(constantsCode) && varsCode == old(varsCode)
        invariant typesCode == old(typesCode) && helpersCode == old(helpersCode)
      {
        var ser := PlanSteps(def, cat, ms[i].fields);
        var des := PlanSteps(def, cat, ms[i].fields);
        var code := methodsCode.value;
        methodsCode := Some(code.(models := code.models + [ModelMethods(ms[i].name, ser, des)]));
        i := i + 1;
      }
      assert methodsCode.value.models == AllMethods(options.packageName, def, cat).models;
    }

    /**
     * The pipeline: an empty package name is refused before any pass runs;
     * otherwise the five passes run in order, the first error stops the
     * run, and only after all of them succeed are the filled buffers handed
     * to the writer, constants, vars, types, helpers, methods.
     */
    method GenerateCode() returns (r: Result<seq<OutputFile>, GenError>)
      modifies this
      ensures r == Generate(options, backend)
      ensures options.packageName == "" ==>
        constantsCode == old(constantsCode) && varsCode == old(varsCode) && typesCode == old(typesCode) &&
        helpersCode == old(helpersCode) && methodsCode == old(methodsCode)
      ensures r.Err? && r.error.Unsupported? ==>
        constantsCode.Some? && varsCode.Some? && typesCode.Some? &&
        helpersCode == old(helpersCode) && methodsCode == old(methodsCode)
      ensures r.Ok? ==>
        constantsCode.Some? && varsCode.Some? && typesCode.Some? && helpersCode.Some? && methodsCode.Some?
      ensures options.packageName != "" ==>
        constantsCode == Some(Unlines(ConstantsLines(options.packageName, options.definition.models))) &&
        varsCode == Some(Unlines(HeaderLines(options.packageName))) &&
        typesCode == Some(TypesPass(options.packageName, options.definition, backend.catalog, backend.languageName).0)
      ensures r.Ok? ==>
        helpersCode == Some(Unlines(HeaderLines(options.packageName))) &&
        methodsCode == Some(AllMethods(options.packageName, options.definition, backend.catalog))
    {
      if options.packageName == "" {
        return Err(MissingPackageName);
      }
      GenerateConstants();
      GenerateVars();
      var err := GenerateTypes();
      if err.Some? {
        return Err(Unsupported(err.value));
      }
      GenerateHelpers();
      GenerateMethods();
      var path := options.outputPath + [backend.pathSeparator];
      var files: seq<OutputFile> := [];
      if constantsCode.Some? {
        files := files + [OutputFile(path + backend.constantsFile, Source(constantsCode.value))];
      }
      if varsCode.Some? {
        files := files + [OutputFile(path + backend.varsFile, Source(varsCode.value))];
      }
      if typesCode.Some? {
        files := files + [OutputFile(path + backend.typesFile, Source(typesCode.value))];
      }
      if helpersCode.Some? {
        files := files + [OutputFile(path + backend.helpersFile, Source(helpersCode.value))];
      }
      if methodsCode.Some? {
        files := files + [OutputFile(path + backend.methodsFile, Methods(methodsCode.value))];
      }
      assert files == Generate(options, backend).value;
      r := Ok(files);
    }
  }
}
