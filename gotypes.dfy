/**
 * The types pass of the Go backend: every field's ccl type resolved to a Go
 * type, the struct declarations in model and field order, the `time` import
 * when some field is a DateTime, and the structured error for a field whose
 * type the backend cannot express.
 */
module GoTypes {
  import opened Wrappers
  import opened Schema
  import opened GoText
  import opened Codec

  /** The `UnsupportedFieldTypeError` the types pass returns. */
  datatype UnsupportedFieldTypeError = UnsupportedFieldTypeError(
    typeName: string,
    fieldName: string,
    modelName: string,
    targetLanguage: string)

  /** The do-not-edit banner line. */
  const Banner := "// THIS FILE IS AUTOGENERATED" + " BY A CCL TOOL. DO NOT EDIT."

  /** The banner and package clause every emitted file starts with. */
  function HeaderLines(pkg: string): seq<string>
  {
    [Banner, "", "package " + pkg, ""]
  }

  /** The header as the passes write it: the banner with a blank line, then the package clause with one. */
  lemma HeaderText(pkg: string)
    ensures Unlines(HeaderLines(pkg)) == Banner + "\n\n" + ("package " + pkg + "\n\n")
  {
    var p := "package " + pkg;
    assert Unlines([""]) == "\n" by {
      assert [""][1..] == [];
    }
    assert Unlines([p, ""]) == p + "\n\n" by {
      assert [p, ""][1..] == [""];
    }
    assert Unlines(["", p, ""]) == "\n" + p + "\n\n" by {
      assert ["", p, ""][1..] == [p, ""];
    }
    assert HeaderLines(pkg)[1..] == ["", p, ""];
  }

  function ArrayPrefix(f: Field): string
  {
    if f.isArray then "[]" else ""
  }

  /**
   * The Go type of a field of model `modelName`: the primitive table first,
   * then a pointer to the model of that name, with `[]` in front for an array.
   */
  function ResolveGoType(def: Definition, cat: Catalog, lang: string, modelName: string, f: Field)
    : (r: Result<string, UnsupportedFieldTypeError>)
    ensures r.Err? <==> f.typeName !in cat.goTypes && !IsCustomType(def, f.typeName)
    ensures r.Err? ==> r.error == UnsupportedFieldTypeError(f.typeName, f.name, modelName, lang)
    ensures r.Ok? && f.typeName in cat.goTypes ==> r.value == ArrayPrefix(f) + cat.goTypes[f.typeName]
    ensures r.Ok? && f.typeName !in cat.goTypes ==> r.value == ArrayPrefix(f) + "*" + f.typeName
  {
    if f.typeName in cat.goTypes then Ok(ArrayPrefix(f) + cat.goTypes[f.typeName])
    else
      match GetModelByName(def, f.typeName)
      case None => Err(UnsupportedFieldTypeError(f.typeName, f.name, modelName, lang))
      case Some(custom) => Ok(ArrayPrefix(f) + "*" + custom.name)
  }

  function StructOpen(name: string): string
  {
    "type " + name + " struct {"
  }

  function FieldLine(name: string, goType: string): string
  {
    "\t" + name + " " + goType
  }

  /**
   * The field lines of one struct, in field order, up to the first field
   * that does not resolve; the error, if any, is returned beside them.
   */
  function FieldLines(def: Definition, cat: Catalog, lang: string, modelName: string, fs: seq<Field>)
    : (r: (seq<string>, Option<UnsupportedFieldTypeError>))
  {
    if |fs| == 0 then ([], None)
    else
      var (ls, e) := FieldLines(def, cat, lang, modelName, fs[..|fs| - 1]);
      if e.Some? then (ls, e)
      else
        match ResolveGoType(def, cat, lang, modelName, fs[|fs| - 1])
        case Err(x) => (ls, Some(x))
        case Ok(t) => (ls + [FieldLine(fs[|fs| - 1].name, t)], None)
  }

  /** The struct declarations of `ms`, in order, as far as the first unresolvable field. */
  function StructLines(def: Definition, cat: Catalog, lang: string, ms: seq<Model>)
    : (r: (seq<string>, Option<UnsupportedFieldTypeError>))
  {
    if |ms| == 0 then ([], None)
    else
      var (ls, e) := StructLines(def, cat, lang, ms[..|ms| - 1]);
      if e.Some? then (ls, e)
      else
        var m := ms[|ms| - 1];
        var (fl, fe) := FieldLines(def, cat, lang, m.name, m.fields);
        if fe.Some? then (ls + [StructOpen(m.name)] + fl, fe)
        else (ls + [StructOpen(m.name)] + fl + ["}", ""], None)
  }

  /** Some field of some model has the DateTime type name. */
  predicate HasDateTimeField(def: Definition, cat: Catalog)
  {
    exists i, j :: 0 <= i < |def.models| && 0 <= j < |def.models[i].fields| &&
      def.models[i].fields[j].typeName == cat.dateTimeType
  }

  const TimeImport := "\t\"time\""

  function ImportLines(def: Definition, cat: Catalog): seq<string>
  {
    if HasDateTimeField(def, cat) then ["import (", TimeImport, ")", ""] else []
  }

  const InterfaceLines: seq<string> := [
    "type Serializable" + " interface {",
    "\tSerializeBinary()" + " ([]byte, error)",
    "\tDeserializeBinary" + "(data []byte) error",
    "\tCloneEmpty()" + " Serializable",
    "}",
    ""]

  /**
   * The text the types pass leaves in its buffer, and its error: on failure
   * the buffer holds everything written before the offending field.
   */
  function TypesPass(pkg: string, def: Definition, cat: Catalog, lang: string)
    : (r: (string, Option<UnsupportedFieldTypeError>))
  {
    var (sl, e) := StructLines(def, cat, lang, def.models);
    (Unlines(HeaderLines(pkg) + ImportLines(def, cat) + InterfaceLines + sl), e)
  }

  /** The types text is its four parts one after the other, as the pass writes them. */
  lemma TypesPassText(pkg: string, def: Definition, cat: Catalog, lang: string)
    ensures var (sl, e) := StructLines(def, cat, lang, def.models);
      TypesPass(pkg, def, cat, lang) ==
        (Unlines(HeaderLines(pkg)) + Unlines(ImportLines(def, cat)) + Unlines(InterfaceLines) + Unlines(sl), e)
  {
    var hl, il, sl := HeaderLines(pkg), ImportLines(def, cat), StructLines(def, cat, lang, def.models).0;
    UnlinesAppend(hl, il);
    UnlinesAppend(hl + il, InterfaceLines);
    UnlinesAppend(hl + il + InterfaceLines, sl);
  }

  // ------------------------------------------------------------ which field fails

  /** Field `j` of model `i` is the first one, in model then field order, that does not resolve. */
  predicate FirstUnresolved(def: Definition, cat: Catalog, lang: string, ms: seq<Model>, i: int, j: int)
  {
    0 <= i < |ms| && 0 <= j < |ms[i].fields| &&
    ResolveGoType(def, cat, lang, ms[i].name, ms[i].fields[j]).Err? &&
    (forall i', j' :: 0 <= i' < i && 0 <= j' < |ms[i'].fields| ==>
      ResolveGoType(def, cat, lang, ms[i'].name, ms[i'].fields[j']).Ok?) &&
    (forall j' :: 0 <= j' < j ==> ResolveGoType(def, cat, lang, ms[i].name, ms[i].fields[j']).Ok?)
  }

  predicate AllResolve(def: Definition, cat: Catalog, lang: string, ms: seq<Model>)
  {
    forall i, j :: 0 <= i < |ms| && 0 <= j < |ms[i].fields| ==>
      ResolveGoType(def, cat, lang, ms[i].name, ms[i].fields[j]).Ok?
  }

  lemma {:induction false} FieldLinesError(def: Definition, cat: Catalog, lang: string, mn: string, fs: seq<Field>)
    ensures FieldLines(def, cat, lang, mn, fs).1.None? <==>
      forall j :: 0 <= j < |fs| ==> ResolveGoType(def, cat, lang, mn, fs[j]).Ok?
    ensures FieldLines(def, cat, lang, mn, fs).1.Some? ==>
      exists j :: 0 <= j < |fs| && ResolveGoType(def, cat, lang, mn, fs[j]) == Err(FieldLines(def, cat, lang, mn, fs).1.value) &&
        forall j' :: 0 <= j' < j ==> ResolveGoType(def, cat, lang, mn, fs[j']).Ok?
  {
    if |fs| > 0 {
      var init := fs[..|fs| - 1];
      FieldLinesError(def, cat, lang, mn, init);
      assert forall j :: 0 <= j < |init| ==> init[j] == fs[j];
    }
  }

  /** All fields of `ms` resolve exactly when those of all models but the last do and the last's do. */
  lemma AllResolveSnoc(def: Definition, cat: Catalog, lang: string, ms: seq<Model>)
    requires |ms| > 0
    ensures var m := ms[|ms| - 1];
      AllResolve(def, cat, lang, ms) <==>
        AllResolve(def, cat, lang, ms[..|ms| - 1]) &&
        forall j :: 0 <= j < |m.fields| ==> ResolveGoType(def, cat, lang, m.name, m.fields[j]).Ok?
  {
    var init := ms[..|ms| - 1];
    var m := ms[|ms| - 1];
    assert forall i :: 0 <= i < |init| ==> init[i] == ms[i];
    if AllResolve(def, cat, lang, init) &&
       forall j :: 0 <= j < |m.fields| ==> ResolveGoType(def, cat, lang, m.name, m.fields[j]).Ok? {
      forall i, j | 0 <= i < |ms| && 0 <= j < |ms[i].fields|
        ensures ResolveGoType(def, cat, lang, ms[i].name, ms[i].fields[j]).Ok?
      {
        if i < |init| {
          assert ms[i] == init[i];
        }
      }
    }
  }

  /** The first failing field of a prefix is still the first failing field once models are appended. */
  lemma FirstUnresolvedSnoc(def: Definition, cat: Catalog, lang: string, ms: seq<Model>, i: int, j: int)
    requires |ms| > 0 && FirstUnresolved(def, cat, lang, ms[..|ms| - 1], i, j)
    ensures FirstUnresolved(def, cat, lang, ms, i, j)
  {
    var init := ms[..|ms| - 1];
    assert forall k :: 0 <= k < |init| ==> init[k] == ms[k];
  }

  /** A failing field of the last model, after every earlier field resolved, is the first failing field. */
  lemma FirstUnresolvedLast(def: Definition, cat: Catalog, lang: string, ms: seq<Model>, j: int)
    requires |ms| > 0 && AllResolve(def, cat, lang, ms[..|ms| - 1])
    requires var m := ms[|ms| - 1];
      0 <= j < |m.fields| && ResolveGoType(def, cat, lang, m.name, m.fields[j]).Err? &&
      forall j' :: 0 <= j' < j ==> ResolveGoType(def, cat, lang, m.name, m.fields[j']).Ok?
    ensures FirstUnresolved(def, cat, lang, ms, |ms| - 1, j)
  {
    var init := ms[..|ms| - 1];
    assert forall k :: 0 <= k < |init| ==> init[k] == ms[k];
  }

  lemma {:induction false} StructLinesError(def: Definition, cat: Catalog, lang: string, ms: seq<Model>)
    ensures StructLines(def, cat, lang, ms).1.None? <==> AllResolve(def, cat, lang, ms)
    ensures StructLines(def, cat, lang, ms).1.Some? ==>
      exists i, j :: FirstUnresolved(def, cat, lang, ms, i, j) &&
        Err(StructLines(def, cat, lang, ms).1.value) == ResolveGoType(def, cat, lang, ms[i].name, ms[i].fields[j])
  {
    if |ms| > 0 {
      var init := ms[..|ms| - 1];
      var m := ms[|ms| - 1];
      StructLinesError(def, cat, lang, init);
      FieldLinesError(def, cat, lang, m.name, m.fields);
      AllResolveSnoc(def, cat, lang, ms);
      var e := StructLines(def, cat, lang, init).1;
      if e.Some? {
        var i, j :| FirstUnresolved(def, cat, lang, init, i, j) &&
          Err(e.value) == ResolveGoType(def, cat, lang, init[i].name, init[i].fields[j]);
        FirstUnresolvedSnoc(def, cat, lang, ms, i, j);
        assert init[i] == ms[i];
      } else if FieldLines(def, cat, lang, m.name, m.fields).1.Some? {
        var fe := FieldLines(def, cat, lang, m.name, m.fields).1.value;
        var j :| 0 <= j < |m.fields| && ResolveGoType(def, cat, lang, m.name, m.fields[j]) == Err(fe) &&
          forall j' :: 0 <= j' < j ==> ResolveGoType(def, cat, lang, m.name, m.fields[j']).Ok?;
        FirstUnresolvedLast(def, cat, lang, ms, j);
      }
    }
  }

  /**
   * The types pass fails exactly when some field resolves neither as a
   * primitive nor as a model, and then reports the first such field, in
   * model then field order, with its model and the target language.
   */
  lemma TypesPassError(pkg: string, def: Definition, cat: Catalog, lang: string)
    ensures TypesPass(pkg, def, cat, lang).1.None? <==> AllResolve(def, cat, lang, def.models)
    ensures TypesPass(pkg, def, cat, lang).1.Some? ==>
      exists i, j :: FirstUnresolved(def, cat, lang, def.models, i, j) &&
        var f := def.models[i].fields[j];
        f.typeName !in cat.goTypes && !IsCustomType(def, f.typeName) &&
        TypesPass(pkg, def, cat, lang).1.value ==
          UnsupportedFieldTypeError(f.typeName, f.name, def.models[i].name, lang)
  {
    StructLinesError(def, cat, lang, def.models);
  }

  // ------------------------------------------------------------ a successful pass

  /** One struct declaration, every field resolved: the opening line, a line per field in order, the brace. */
  function StructDecl(def: Definition, cat: Catalog, lang: string, m: Model): seq<string>
    requires forall j :: 0 <= j < |m.fields| ==> ResolveGoType(def, cat, lang, m.name, m.fields[j]).Ok?
  {
    [StructOpen(m.name)] + ResolvedFields(def, cat, lang, m.name, m.fields) + ["}", ""]
  }

  function ResolvedFields(def: Definition, cat: Catalog, lang: string, mn: string, fs: seq<Field>): seq<string>
    requires forall j :: 0 <= j < |fs| ==> ResolveGoType(def, cat, lang, mn, fs[j]).Ok?
  {
    seq(|fs|, j requires 0 <= j < |fs| => FieldLine(fs[j].name, ResolveGoType(def, cat, lang, mn, fs[j]).value))
  }

  function StructDecls(def: Definition, cat: Catalog, lang: string, ms: seq<Model>): seq<seq<string>>
    requires AllResolve(def, cat, lang, ms)
  {
    seq(|ms|, i requires 0 <= i < |ms| => StructDecl(def, cat, lang, ms[i]))
  }

  lemma {:induction false} FieldLinesOk(def: Definition, cat: Catalog, lang: string, mn: string, fs: seq<Field>)
    requires forall j :: 0 <= j < |fs| ==> ResolveGoType(def, cat, lang, mn, fs[j]).Ok?
    ensures FieldLines(def, cat, lang, mn, fs) == (ResolvedFields(def, cat, lang, mn, fs), None)
  {
    if |fs| > 0 {
      var init := fs[..|fs| - 1];
      assert forall j :: 0 <= j < |init| ==> init[j] == fs[j];
      FieldLinesOk(def, cat, lang, mn, init);
      assert ResolvedFields(def, cat, lang, mn, fs) ==
        ResolvedFields(def, cat, lang, mn, init) +
        [FieldLine(fs[|fs| - 1].name, ResolveGoType(def, cat, lang, mn, fs[|fs| - 1]).value)];
    }
  }

  lemma StructDeclsSnoc(def: Definition, cat: Catalog, lang: string, ms: seq<Model>)
    requires |ms| > 0 && AllResolve(def, cat, lang, ms)
    ensures AllResolve(def, cat, lang, ms[..|ms| - 1])
    ensures Concat(StructDecls(def, cat, lang, ms)) ==
      Concat(StructDecls(def, cat, lang, ms[..|ms| - 1])) + StructDecl(def, cat, lang, ms[|ms| - 1])
  {
    var init, m := ms[..|ms| - 1], ms[|ms| - 1];
    AllResolveSnoc(def, cat, lang, ms);
    assert StructDecls(def, cat, lang, ms) == StructDecls(def, cat, lang, init) + [StructDecl(def, cat, lang, m)];
    ConcatSnoc(StructDecls(def, cat, lang, init), StructDecl(def, cat, lang, m));
  }

  /** When every field resolves, the pass declares every model, in order, each with its fields in order. */
  lemma {:induction false} StructLinesOk(def: Definition, cat: Catalog, lang: string, ms: seq<Model>)
    requires AllResolve(def, cat, lang, ms)
    ensures StructLines(def, cat, lang, ms) == (Concat(StructDecls(def, cat, lang, ms)), None)
  {
    if |ms| > 0 {
      var init := ms[..|ms| - 1];
      var m := ms[|ms| - 1];
      StructDeclsSnoc(def, cat, lang, ms);
      StructLinesOk(def, cat, lang, init);
      assert forall j :: 0 <= j < |m.fields| ==> ResolveGoType(def, cat, lang, m.name, m.fields[j]).Ok?;
      FieldLinesOk(def, cat, lang, m.name, m.fields);
      StructLinesNext(def, cat, lang, ms, |ms| - 1);
      assert ms[..|ms| - 1 + 1] == ms;
      var prev := Concat(StructDecls(def, cat, lang, init));
      var rf := ResolvedFields(def, cat, lang, m.name, m.fields);
      assert prev + [StructOpen(m.name)] + rf + ["}", ""] == prev + StructDecl(def, cat, lang, m);
    } else {
      assert StructDecls(def, cat, lang, ms) == [];
    }
  }

  // ------------------------------------------------------------ the time import

  /** Every name that reaches a line of the types file is itself one line. */
  predicate SingleLineNames(pkg: string, def: Definition, cat: Catalog)
  {
    OneLine(pkg) &&
    (forall t :: t in cat.goTypes ==> OneLine(cat.goTypes[t])) &&
    (forall i :: 0 <= i < |def.models| ==> OneLine(def.models[i].name)) &&
    (forall i, j :: 0 <= i < |def.models| && 0 <= j < |def.models[i].fields| ==>
      OneLine(def.models[i].fields[j].name))
  }

  /** Lines that are each one line and none of them the time import. */
  predicate DeclLines(ls: seq<string>)
  {
    AllOneLine(ls) && TimeImport !in ls
  }

  lemma DeclLinesAppend(a: seq<string>, b: seq<string>)
    requires DeclLines(a) && DeclLines(b)
    ensures DeclLines(a + b)
  {
    AllOneLineAppend(a, b);
  }

  lemma FieldLineShape(n: string, t: string)
    requires OneLine(n) && OneLine(t)
    ensures DeclLines([FieldLine(n, t)])
  {
    var l := FieldLine(n, t);
    assert l[|n| + 1] == ' ';
    assert forall k :: 0 <= k < |TimeImport| ==> TimeImport[k] != ' ';
  }

  lemma {:induction false} FieldLinesShape(def: Definition, cat: Catalog, lang: string, m: Model, fs: seq<Field>)
    requires forall t :: t in cat.goTypes ==> OneLine(cat.goTypes[t])
    requires (forall i :: 0 <= i < |def.models| ==> OneLine(def.models[i].name))
    requires forall j :: 0 <= j < |fs| ==> OneLine(fs[j].name)
    ensures DeclLines(FieldLines(def, cat, lang, m.name, fs).0)
  {
    if |fs| > 0 {
      var f := fs[|fs| - 1];
      FieldLinesShape(def, cat, lang, m, fs[..|fs| - 1]);
      var r := ResolveGoType(def, cat, lang, m.name, f);
      if r.Ok? {
        if f.typeName !in cat.goTypes {
          var c := GetModelByName(def, f.typeName).value;
          assert OneLine(c.name);
        }
        FieldLineShape(f.name, r.value);
        DeclLinesAppend(FieldLines(def, cat, lang, m.name, fs[..|fs| - 1]).0, [FieldLine(f.name, r.value)]);
      }
    }
  }

  lemma {:induction false} StructLinesShape(def: Definition, cat: Catalog, lang: string, ms: seq<Model>)
    requires forall t :: t in cat.goTypes ==> OneLine(cat.goTypes[t])
    requires forall i :: 0 <= i < |def.models| ==> OneLine(def.models[i].name)
    requires forall i :: 0 <= i < |ms| ==> OneLine(ms[i].name)
    requires forall i, j :: 0 <= i < |ms| && 0 <= j < |ms[i].fields| ==> OneLine(ms[i].fields[j].name)
    ensures DeclLines(StructLines(def, cat, lang, ms).0)
  {
    if |ms| > 0 {
      var m := ms[|ms| - 1];
      var prev := StructLines(def, cat, lang, ms[..|ms| - 1]).0;
      var fl := FieldLines(def, cat, lang, m.name, m.fields).0;
      StructLinesShape(def, cat, lang, ms[..|ms| - 1]);
      FieldLinesShape(def, cat, lang, m, m.fields);
      assert DeclLines([StructOpen(m.name)]) by {
        assert StructOpen(m.name)[0] == 't';
      }
      assert DeclLines(["}", ""]);
      DeclLinesAppend(prev, [StructOpen(m.name)]);
      DeclLinesAppend(prev + [StructOpen(m.name)], fl);
      DeclLinesAppend(prev + [StructOpen(m.name)] + fl, ["}", ""]);
    }
  }

  lemma HeaderShape(pkg: string)
    requires OneLine(pkg)
    ensures DeclLines(HeaderLines(pkg))
  {
    assert OneLine(Banner) && Banner != TimeImport;
    assert OneLine("package " + pkg) && "package " + pkg != TimeImport by {
      assert ("package " + pkg)[0] == 'p';
    }
  }

  lemma InterfaceShape()
    ensures DeclLines(InterfaceLines)
  {
    assert OneLine(InterfaceLines[0]);
    assert OneLine(InterfaceLines[1]);
    assert OneLine(InterfaceLines[2]);
    assert OneLine(InterfaceLines[3]);
  }

  /** The types file holds the `"time"` import line exactly when some field is a DateTime. */
  lemma TimeImportIff(pkg: string, def: Definition, cat: Catalog, lang: string)
    requires SingleLineNames(pkg, def, cat)
    ensures TimeImport in SplitLines(TypesPass(pkg, def, cat, lang).0) <==> HasDateTimeField(def, cat)
  {
    var sl := StructLines(def, cat, lang, def.models).0;
    var hl, il := HeaderLines(pkg), ImportLines(def, cat);
    StructLinesShape(def, cat, lang, def.models);
    HeaderShape(pkg);
    InterfaceShape();
    DeclLinesAppend(InterfaceLines, sl);
    var rest := InterfaceLines + sl;
    assert AllOneLine(il);
    AllOneLineAppend(hl, il);
    AllOneLineAppend(hl + il, rest);
    assert hl + il + InterfaceLines + sl == (hl + il) + rest;
    SplitUnlines(hl + il + rest);
  }

  // ------------------------------------------------------------ stopping at the first error

  /** Once a prefix of the fields has failed, the later fields add nothing. */
  lemma {:induction false} FieldLinesStop(def: Definition, cat: Catalog, lang: string, mn: string, fs: seq<Field>, n: nat)
    requires n <= |fs| && FieldLines(def, cat, lang, mn, fs[..n]).1.Some?
    ensures FieldLines(def, cat, lang, mn, fs) == FieldLines(def, cat, lang, mn, fs[..n])
    decreases |fs| - n
  {
    if n < |fs| {
      var init := fs[..|fs| - 1];
      assert init[..n] == fs[..n];
      FieldLinesStop(def, cat, lang, mn, init, n);
    } else {
      assert fs[..n] == fs;
    }
  }

  /** One more field after a clean prefix: its line is appended, or its error stops the struct. */
  lemma FieldLinesNext(def: Definition, cat: Catalog, lang: string, mn: string, fs: seq<Field>, j: nat)
    requires j < |fs| && FieldLines(def, cat, lang, mn, fs[..j]).1.None?
    ensures var r := ResolveGoType(def, cat, lang, mn, fs[j]);
      FieldLines(def, cat, lang, mn, fs[..j + 1]) ==
        if r.Err? then (FieldLines(def, cat, lang, mn, fs[..j]).0, Some(r.error))
        else (FieldLines(def, cat, lang, mn, fs[..j]).0 + [FieldLine(fs[j].name, r.value)], None)
  {
    assert fs[..j + 1][..j] == fs[..j];
  }

  /** One more model after a clean prefix: its declaration is appended, cut short at its first error. */
  lemma StructLinesNext(def: Definition, cat: Catalog, lang: string, ms: seq<Model>, i: nat)
    requires i < |ms| && StructLines(def, cat, lang, ms[..i]).1.None?
    ensures var prev := StructLines(def, cat, lang, ms[..i]).0;
      var (fl, fe) := FieldLines(def, cat, lang, ms[i].name, ms[i].fields);
      StructLines(def, cat, lang, ms[..i + 1]) ==
        if fe.Some? then (prev + [StructOpen(ms[i].name)] + fl, fe)
        else (prev + [StructOpen(ms[i].name)] + fl + ["}", ""], None)
  {
    assert ms[..i + 1][..i] == ms[..i];
  }

  /** Once a prefix of the models has failed, the later models add nothing. */
  lemma {:induction false} StructLinesStop(def: Definition, cat: Catalog, lang: string, ms: seq<Model>, n: nat)
    requires n <= |ms| && StructLines(def, cat, lang, ms[..n]).1.Some?
    ensures StructLines(def, cat, lang, ms) == StructLines(def, cat, lang, ms[..n])
    decreases |ms| - n
  {
    if n < |ms| {
      var init := ms[..|ms| - 1];
      assert init[..n] == ms[..n];
      StructLinesStop(def, cat, lang, init, n);
    } else {
      assert ms[..n] == ms;
    }
  }

  // ------------------------------------------------------------ the types pass beside the methods pass

  /**
   * Away from the two quirks below, the struct field type and the wire
   * strategy agree: a nested model is a pointer to it, an array of them a
   * slice of pointers, and a scalar is the primitive table's Go type.
   */
  lemma TypeAndPlanAgree(def: Definition, cat: Catalog, lang: string, mn: string, f: Field)
    requires !IsKeyword(cat, f.typeName)
    requires f.typeName !in cat.goTypes || !IsCustomType(def, f.typeName)
    ensures PlanField(def, cat, f).Nested? ==>
      ResolveGoType(def, cat, lang, mn, f) == Ok("*" + PlanField(def, cat, f).model.name)
    ensures PlanField(def, cat, f).NestedArray? ==>
      ResolveGoType(def, cat, lang, mn, f) == Ok("[]*" + PlanField(def, cat, f).model.name)
    ensures PlanField(def, cat, f).Scalar? ==>
      (ResolveGoType(def, cat, lang, mn, f).Ok? <==> f.typeName in cat.goTypes) &&
      (f.typeName in cat.goTypes ==> ResolveGoType(def, cat, lang, mn, f) == Ok(cat.goTypes[f.typeName]))
    ensures PlanField(def, cat, f).ScalarArray? ==>
      (ResolveGoType(def, cat, lang, mn, f).Ok? <==> f.typeName in cat.goTypes) &&
      (f.typeName in cat.goTypes ==> ResolveGoType(def, cat, lang, mn, f) == Ok("[]" + cat.goTypes[f.typeName]))
  {
    var s := PlanField(def, cat, f);
    PlanFieldCases(def, cat, f, s);
    var p := ArrayPrefix(f);
    if s.Nested? {
      assert p + "*" + f.typeName == "*" + s.model.name;
    } else if s.NestedArray? {
      assert p + "*" + f.typeName == "[]*" + s.model.name;
    } else if s.Scalar? && f.typeName in cat.goTypes {
      assert p + cat.goTypes[f.typeName] == cat.goTypes[f.typeName];
    }
  }

  /**
   * A primitive name that is also a model name: the struct field gets the
   * primitive Go type, while the serializer and deserializer treat it as a
   * nested model.
   */
  lemma ShadowedPrimitive(def: Definition, cat: Catalog, lang: string, mn: string, f: Field)
    requires !IsKeyword(cat, f.typeName)
    requires f.typeName in cat.goTypes && IsCustomType(def, f.typeName)
    ensures ResolveGoType(def, cat, lang, mn, f) == Ok(ArrayPrefix(f) + cat.goTypes[f.typeName])
    ensures PlanField(def, cat, f).Nested? || PlanField(def, cat, f).NestedArray?
  {
    PlanFieldCases(def, cat, f, PlanField(def, cat, f));
  }

  /**
   * An array of text, bytes or DateTime: the struct field is a slice, while
   * the serializer and deserializer handle it as one such value.
   */
  lemma KeywordArray(def: Definition, cat: Catalog, lang: string, mn: string, f: Field)
    requires f.isArray && IsKeyword(cat, f.typeName) && f.typeName in cat.goTypes
    ensures ResolveGoType(def, cat, lang, mn, f) == Ok("[]" + cat.goTypes[f.typeName])
    ensures PlanField(def, cat, f) in {Text, Blob, Timestamp}
  {
  }
}
