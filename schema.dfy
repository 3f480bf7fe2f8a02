/** Option and Result, the two failure-carrying wrappers the model uses. */
module Wrappers {

  datatype Option<+T> = None | Some(value: T)

  datatype Result<+T, +E> = Ok(value: T) | Err(error: E)
}

/**
 * The schema a ccl source file is parsed into: a Definition owns an ordered
 * list of Models, each Model an ordered list of Fields. The parser that
 * builds these values is not part of this model; the emitter only reads them.
 */
module Schema {
  import opened Wrappers

  /** One byte of a serialized message. */
  type Byte = b: int | 0 <= b < 256

  /** A field of a model: its name, its ccl type name and whether it is an array. */
  datatype Field = Field(name: string, typeName: string, isArray: bool)

  /** A named record type with a stable integer identity and its fields in wire order. */
  datatype Model = Model(name: string, modelId: nat, fields: seq<Field>)

  /** The root container: all models of one source file, in declaration order. */
  datatype Definition = Definition(models: seq<Model>)

  /**
   * The lookup `Definition.GetModelByName`: the first model whose name is
   * `name`, or None when no model has that name.
   */
  function GetModelByName(def: Definition, name: string): (r: Option<Model>)
    ensures r.Some? <==> exists i :: 0 <= i < |def.models| && def.models[i].name == name
    ensures r.Some? ==> r.value.name == name && r.value in def.models
    decreases |def.models|
  {
    if |def.models| == 0 then None
    else if def.models[0].name == name then Some(def.models[0])
    else
      var rest := GetModelByName(Definition(def.models[1..]), name);
      assert forall i :: 1 <= i < |def.models| ==> def.models[i] == def.models[1..][i - 1];
      rest
  }

  /** `Definition.IsCustomType`: the type name is the name of a model of the definition. */
  predicate IsCustomType(def: Definition, name: string)
  {
    GetModelByName(def, name).Some?
  }

  /**
   * The primitive type catalog the Go backend is parameterised by:
   * `goTypes` is the table from ccl primitive type names to Go type names,
   * the three names are the ccl keywords for text, raw bytes and DateTime,
   * and `widths` gives the byte width of every fixed-size scalar type that
   * the binary encoder can write as a little-endian block. The keyword tests
   * are made string first, then bytes, then DateTime, as the emitter's switch
   * makes them, so the three names need not be distinct.
   */
  datatype Catalog = Catalog(
    goTypes: map<string, string>,
    stringType: string,
    bytesType: string,
    dateTimeType: string,
    widths: map<string, nat>)
}
