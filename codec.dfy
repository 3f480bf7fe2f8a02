/**
 * The binary codec that the emitted `SerializeBinary` and `DeserializeBinary`
 * methods implement, as values: the per-field strategy the emitter picks,
 * the runtime values of generated structs, the encoder, the decoder, and
 * the round-trip, truncation and nil-sentinel properties relating them.
 */
module Codec {
  import opened Wrappers
  import opened Schema
  import opened Wire

  /**
   * How the emitted code writes and reads one field. The emitter tests the
   * three keywords first and only then looks at the array flag, so an array
   * of text, bytes or DateTime is planned like a single such value.
   */
  datatype Strategy =
    | Text                         // uint32 length + raw UTF-8 bytes
    | Blob                         // uint32 length + raw bytes
    | Timestamp                    // int64 UnixNano
    | Scalar(typeName: string)     // fixed-width little-endian block
    | Nested(model: Model)         // uint32 length + nested serialization
    | ScalarArray(typeName: string)  // uint32 count + blocks
    | NestedArray(model: Model)    // uint32 count + (uint32 length + nested serialization)*

  predicate IsKeyword(cat: Catalog, t: string)
  {
    t == cat.stringType || t == cat.bytesType || t == cat.dateTimeType
  }

  /** The strategy the serializer and deserializer loops pick for a field. */
  function PlanField(def: Definition, cat: Catalog, f: Field): Strategy
  {
    if f.typeName == cat.stringType then Text
    else if f.typeName == cat.bytesType then Blob
    else if f.typeName == cat.dateTimeType then Timestamp
    else
      match GetModelByName(def, f.typeName)
      case Some(m) => if f.isArray then NestedArray(m) else Nested(m)
      case None => if f.isArray then ScalarArray(f.typeName) else Scalar(f.typeName)
  }

  /**
   * The planner's classification: the three keywords come first, whatever
   * the array flag says; then a model name gives a nested strategy; anything
   * else is a fixed-width scalar; the array flag picks the array form of the
   * last two.
   */
  lemma PlanFieldCases(def: Definition, cat: Catalog, f: Field, s: Strategy)
    requires s == PlanField(def, cat, f)
    ensures s == Text <==> f.typeName == cat.stringType
    ensures s == Blob <==> f.typeName != cat.stringType && f.typeName == cat.bytesType
    ensures s == Timestamp <==>
      f.typeName != cat.stringType && f.typeName != cat.bytesType && f.typeName == cat.dateTimeType
    ensures (s.Nested? || s.NestedArray?) <==> !IsKeyword(cat, f.typeName) && IsCustomType(def, f.typeName)
    ensures (s.Nested? || s.NestedArray?) ==> Some(s.model) == GetModelByName(def, f.typeName)
    ensures (s.Scalar? || s.ScalarArray?) ==> s.typeName == f.typeName
    ensures (s.ScalarArray? || s.NestedArray?) <==> !IsKeyword(cat, f.typeName) && f.isArray
  {
  }

  /**
   * The runtime value of one field of a generated struct. Text is kept as
   * its UTF-8 bytes, a DateTime as the nanosecond count `UnixNano` gives,
   * a scalar as the little-endian block `binary.Write` produces for it.
   */
  datatype Value =
    | Str(text: seq<Byte>)
    | Bin(data: seq<Byte>)
    | Stamp(nanos: int)
    | Raw(block: seq<Byte>)
    | Ref(target: Instance)
    | Raws(blocks: seq<seq<Byte>>)
    | Refs(targets: seq<Instance>)

  /** A pointer to a generated struct: nil, or an object with one value per field. */
  datatype Instance = Nil | Obj(values: seq<Value>)

  // ---------------------------------------------------------------- encoder

  /** `SerializeBinary`: a nil receiver gives the one byte 0, an object its fields in order. */
  function Serialize(inst: Instance): seq<Byte>
  {
    match inst
    case Nil => [0]
    case Obj(vs) => SerializeValues(vs)
  }

  function SerializeValues(vs: seq<Value>): seq<Byte>
  {
    if vs == [] then [] else SerializeValue(vs[0]) + SerializeValues(vs[1..])
  }

  function SerializeValue(v: Value): seq<Byte>
  {
    match v
    case Str(b) => U32(|b|) + b
    case Bin(b) => U32(|b|) + b
    case Stamp(n) => I64(n)
    case Raw(b) => b
    case Ref(t) => var s := Serialize(t); U32(|s|) + s
    case Raws(bs) => U32(|bs|) + Flatten(bs)
    case Refs(ts) => U32(|ts|) + SerializeTargets(ts)
  }

  function SerializeTargets(ts: seq<Instance>): seq<Byte>
  {
    if ts == [] then []
    else var s := Serialize(ts[0]); U32(|s|) + s + SerializeTargets(ts[1..])
  }

  function Flatten(bs: seq<seq<Byte>>): seq<Byte>
  {
    if bs == [] then [] else bs[0] + Flatten(bs[1..])
  }

  // ---------------------------------------------------------------- decoder

  /** The bytes `data` ends with: what a successful read leaves behind. */
  predicate IsSuffix(rest: seq<Byte>, data: seq<Byte>)
  {
    |rest| <= |data| && data[|data| - |rest|..] == rest
  }

  /**
   * `DeserializeBinary` into a freshly allocated receiver: the fields are
   * read in declaration order, and bytes left over after the last field are
   * ignored. The one-byte nil sentinel gets no special treatment.
   */
  function Deserialize(def: Definition, cat: Catalog, m: Model, data: seq<Byte>): (r: Result<Instance, DecodeError>)
    ensures r.Ok? ==> r.value.Obj? && |r.value.values| == |m.fields|
    decreases |data|, 2, 0
  {
    match DecodeFields(def, cat, m.fields, data)
    case Err(e) => Err(e)
    case Ok((vs, _)) => Ok(Obj(vs))
  }

  function DecodeFields(def: Definition, cat: Catalog, fs: seq<Field>, data: seq<Byte>)
    : (r: Result<(seq<Value>, seq<Byte>), DecodeError>)
    ensures r.Ok? ==> IsSuffix(r.value.1, data) && |r.value.0| == |fs|
    decreases |data|, 1, |fs|
  {
    if fs == [] then Ok(([], data))
    else
      match DecodeField(def, cat, PlanField(def, cat, fs[0]), data)
      case Err(e) => Err(e)
      case Ok((v, rest)) =>
        match DecodeFields(def, cat, fs[1..], rest)
        case Err(e) => Err(e)
        case Ok((vs, rest')) => Ok(([v] + vs, rest'))
  }

  /**
   * A uint32 length followed by exactly that many payload bytes; it fails
   * with a truncation error when the prefix or the payload is cut short.
   */
  function ReadPrefixed(data: seq<Byte>): (r: Result<(seq<Byte>, seq<Byte>), DecodeError>)
    ensures r.Err? ==> r.error == Truncated
    ensures r.Ok? ==> 4 + |r.value.0| + |r.value.1| == |data| && data[4 + |r.value.0|..] == r.value.1
    ensures r.Ok? ==> data[4..4 + |r.value.0|] == r.value.0
  {
    match ReadU32(data)
    case Err(e) => Err(e)
    case Ok((n, rest)) => ReadN(rest, n)
  }

  /** Reading one field with the code the emitter wrote for its strategy. */
  function DecodeField(def: Definition, cat: Catalog, s: Strategy, data: seq<Byte>)
    : (r: Result<(Value, seq<Byte>), DecodeError>)
    ensures r.Ok? ==> IsSuffix(r.value.1, data)
    decreases |data|, 0, 0
  {
    match s
    case Text =>
      (match ReadPrefixed(data)
       case Err(e) => Err(e)
       case Ok((b, rest)) => Ok((Str(b), rest)))
    case Blob =>
      (match ReadPrefixed(data)
       case Err(e) => Err(e)
       case Ok((b, rest)) => Ok((Bin(b), rest)))
    case Timestamp =>
      (match ReadI64(data)
       case Err(e) => Err(e)
       case Ok((n, rest)) => Ok((Stamp(n), rest)))
    case Scalar(t) =>
      if t !in cat.widths then Err(InvalidType(t))
      else
        (match ReadN(data, cat.widths[t])
         case Err(e) => Err(e)
         case Ok((b, rest)) => Ok((Raw(b), rest)))
    case Nested(nm) =>
      (match ReadPrefixed(data)
       case Err(e) => Err(e)
       case Ok((payload, rest)) =>
         match Deserialize(def, cat, nm, payload)
         case Err(e) => Err(e)
         case Ok(inst) => Ok((Ref(inst), rest)))
    case ScalarArray(t) =>
      (match ReadU32(data)
       case Err(e) => Err(e)
       case Ok((n, rest)) =>
         match DecodeBlocks(cat, t, n, rest)
         case Err(e) => Err(e)
         case Ok((bs, rest')) => Ok((Raws(bs), rest')))
    case NestedArray(nm) =>
      (match ReadU32(data)
       case Err(e) => Err(e)
       case Ok((n, rest)) =>
         match DecodeTargets(def, cat, nm, n, rest)
         case Err(e) => Err(e)
         case Ok((ts, rest')) => Ok((Refs(ts), rest')))
  }

  /** `n` fixed-width elements read back to back. */
  function DecodeBlocks(cat: Catalog, t: string, n: nat, data: seq<Byte>)
    : (r: Result<(seq<seq<Byte>>, seq<Byte>), DecodeError>)
    ensures r.Ok? ==> IsSuffix(r.value.1, data) && |r.value.0| == n
  {
    if n == 0 then Ok(([], data))
    else if t !in cat.widths then Err(InvalidType(t))
    else
      match ReadN(data, cat.widths[t])
      case Err(e) => Err(e)
      case Ok((b, rest)) =>
        match DecodeBlocks(cat, t, n - 1, rest)
        case Err(e) => Err(e)
        case Ok((bs, rest')) => Ok(([b] + bs, rest'))
  }

  /** `n` nested elements, each a uint32 length and a nested message decoded into a new object. */
  function DecodeTargets(def: Definition, cat: Catalog, nm: Model, n: nat, data: seq<Byte>)
    : (r: Result<(seq<Instance>, seq<Byte>), DecodeError>)
    ensures r.Ok? ==> IsSuffix(r.value.1, data) && |r.value.0| == n
    decreases |data|, 0, n
  {
    if n == 0 then Ok(([], data))
    else
      match ReadPrefixed(data)
      case Err(e) => Err(e)
      case Ok((payload, rest)) =>
        match Deserialize(def, cat, nm, payload)
        case Err(e) => Err(e)
        case Ok(inst) =>
          match DecodeTargets(def, cat, nm, n - 1, rest)
          case Err(e) => Err(e)
          case Ok((ts, rest')) => Ok(([inst] + ts, rest'))
  }

  // ------------------------------------------------------------ conformance

  /**
   * The value has the shape the generated struct type gives the field, and
   * every length, count and timestamp fits the uint32 or int64 the wire
   * format writes it as.
   */
  predicate Conforms(def: Definition, cat: Catalog, m: Model, inst: Instance)
    decreases inst
  {
    match inst
    case Nil => true
    case Obj(vs) =>
      |vs| == |m.fields| &&
      forall i :: 0 <= i < |vs| ==> ValueConforms(def, cat, PlanField(def, cat, m.fields[i]), vs[i])
  }

  predicate ValueConforms(def: Definition, cat: Catalog, s: Strategy, v: Value)
    decreases v
  {
    match v
    case Str(b) => s == Text && |b| < Two32
    case Bin(b) => s == Blob && |b| < Two32
    case Stamp(n) => s == Timestamp && -(Two63 as int) <= n < Two63
    case Raw(b) => s.Scalar? && s.typeName in cat.widths && |b| == cat.widths[s.typeName]
    case Ref(t) => s.Nested? && Conforms(def, cat, s.model, t) && |Serialize(t)| < Two32
    case Raws(bs) =>
      s.ScalarArray? && s.typeName in cat.widths && |bs| < Two32 &&
      forall i :: 0 <= i < |bs| ==> |bs[i]| == cat.widths[s.typeName]
    case Refs(ts) =>
      s.NestedArray? && |ts| < Two32 &&
      forall i :: 0 <= i < |ts| ==> Conforms(def, cat, s.model, ts[i]) && |Serialize(ts[i])| < Two32
  }

  /** No nil pointer anywhere: the top-level object and every nested one are allocated. */
  predicate NilFree(inst: Instance)
  {
    inst.Obj? && forall i :: 0 <= i < |inst.values| ==> ValueNilFree(inst.values[i])
  }

  predicate ValueNilFree(v: Value)
  {
    match v
    case Ref(t) => NilFree(t)
    case Refs(ts) => forall i :: 0 <= i < |ts| ==> NilFree(ts[i])
    case _ => true
  }

  // ------------------------------------------------------------ CloneEmpty

  /**
   * What `time.Time{}.UnixNano()` returns: the zero Time lies in year 1,
   * -62135596800 seconds from the Unix epoch, and the nanosecond product
   * wraps around in int64 arithmetic.
   */
  const ZeroTimeUnixNano: int := WrapInt64(-62135596800 * 1000000000)

  /** The Go zero value of a field, as the serializer sees it. */
  function ZeroValue(cat: Catalog, s: Strategy): (v: Value)
    ensures ValueNilFree(v) <==> !s.Nested?
  {
    match s
    case Text => Str([])
    case Blob => Bin([])
    case Timestamp => Stamp(ZeroTimeUnixNano)
    case Scalar(t) => Raw(seq(if t in cat.widths then cat.widths[t] else 0, _ => 0))
    case Nested(_) => Ref(Nil)
    case ScalarArray(_) => Raws([])
    case NestedArray(_) => Refs([])
  }

  /** `&Name{}`: a fresh instance with every field at its zero value. */
  function ZeroInstance(def: Definition, cat: Catalog, m: Model): (r: Instance)
    ensures r.Obj? && |r.values| == |m.fields|
    ensures forall i :: 0 <= i < |m.fields| ==> r.values[i] == ZeroValue(cat, PlanField(def, cat, m.fields[i]))
    ensures ScalarsSized(def, cat, m) ==> Conforms(def, cat, m, r)
    ensures NilFree(r) <==> forall i :: 0 <= i < |m.fields| ==> !PlanField(def, cat, m.fields[i]).Nested?
  {
    Obj(seq(|m.fields|, i requires 0 <= i < |m.fields| => ZeroValue(cat, PlanField(def, cat, m.fields[i]))))
  }

  /** Every scalar field of the model has a fixed width the encoder can write. */
  predicate ScalarsSized(def: Definition, cat: Catalog, m: Model)
  {
    forall i :: 0 <= i < |m.fields| ==>
      var s := PlanField(def, cat, m.fields[i]);
      (s.Scalar? || s.ScalarArray?) ==> s.typeName in cat.widths
  }

  /**
   * `CloneEmpty` and `CloneEmptySerializable`: nil for a nil receiver,
   * otherwise a fresh zero instance that does not depend on the receiver's
   * contents.
   */
  function CloneEmpty(def: Definition, cat: Catalog, m: Model, inst: Instance): (r: Instance)
    ensures r.Nil? <==> inst.Nil?
    ensures r.Obj? ==> r == ZeroInstance(def, cat, m)
    ensures r.Obj? && ScalarsSized(def, cat, m) ==> Conforms(def, cat, m, r)
  {
    if inst.Nil? then Nil else ZeroInstance(def, cat, m)
  }
}
