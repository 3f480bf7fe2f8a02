/**
 * A worked example of the wire format: a Line holding a nested Point, an
 * array of Points and a label, with the exact bytes it serializes to.
 */
module CodecExample {
  import opened Wrappers
  import opened Schema
  import opened Wire
  import opened Codec
  import opened CodecLaws

  /** An illustrative catalog: 4-byte `int32`, and keywords for text, bytes and DateTime. */
  const ExampleCatalog := Catalog(
    map["int32" := "int32", "string" := "string", "bytes" := "[]byte", "DateTime" := "time.Time"],
    "string", "bytes", "DateTime", map["int32" := 4])

  const PointModel := Model("Point", 0, [Field("X", "int32", false), Field("Y", "int32", false)])
  const LineModel := Model("Line", 1,
    [Field("A", "Point", false), Field("Points", "Point", true), Field("Label", "string", false)])
  const ExampleDefinition := Definition([PointModel, LineModel])

  function PointValue(x: Byte, y: Byte): Instance
  {
    Obj([Raw([x, 0, 0, 0]), Raw([y, 0, 0, 0])])
  }

  lemma U32OfByte(n: Byte)
    ensures U32(n) == [n, 0, 0, 0]
  {
    assert n % Two32 == n && n % 256 == n && n / 256 == 0;
    assert LittleEndian(0, 1) == [0];
    assert LittleEndian(0, 2) == [0, 0];
    assert LittleEndian(0, 3) == [0, 0, 0];
    assert LittleEndian(n, 4) == [n] + LittleEndian(0, 3);
  }

  lemma PointBytes(x: Byte, y: Byte)
    ensures Serialize(PointValue(x, y)) == [x, 0, 0, 0, y, 0, 0, 0]
  {
    var vs := PointValue(x, y).values;
    assert SerializeValues(vs[1..][1..]) == [];
    assert SerializeValues(vs[1..]) == [y, 0, 0, 0];
    assert SerializeValues(vs) == [x, 0, 0, 0] + [y, 0, 0, 0];
  }

  lemma PointConforms(x: Byte, y: Byte)
    ensures Conforms(ExampleDefinition, ExampleCatalog, PointModel, PointValue(x, y))
    ensures NilFree(PointValue(x, y))
  {
    PointBytes(x, y);
    assert PlanField(ExampleDefinition, ExampleCatalog, PointModel.fields[0]) == Scalar("int32");
    assert PlanField(ExampleDefinition, ExampleCatalog, PointModel.fields[1]) == Scalar("int32");
  }

  /** Line{A: Point{1,2}, Points: [Point{3,4}], Label: "ab"}. */
  const LineValue := Obj([Ref(PointValue(1, 2)), Refs([PointValue(3, 4)]), Str([97, 98])])

  /** A's length and bytes, the array count, the element's length and bytes, the label's length and bytes. */
  const LineBytes: seq<Byte> :=
    [8, 0, 0, 0, 1, 0, 0, 0, 2, 0, 0, 0] +
    ([1, 0, 0, 0, 8, 0, 0, 0, 3, 0, 0, 0, 4, 0, 0, 0] +
     [2, 0, 0, 0, 97, 98])

  lemma RefBytes()
    ensures SerializeValue(Ref(PointValue(1, 2))) == [8, 0, 0, 0, 1, 0, 0, 0, 2, 0, 0, 0]
  {
    PointBytes(1, 2);
    U32OfByte(8);
  }

  lemma RefsBytes()
    ensures SerializeValue(Refs([PointValue(3, 4)])) == [1, 0, 0, 0, 8, 0, 0, 0, 3, 0, 0, 0, 4, 0, 0, 0]
  {
    PointBytes(3, 4);
    U32OfByte(8);
    U32OfByte(1);
    var t := SerializeTargets([PointValue(3, 4)]);
    assert t == [8, 0, 0, 0] + [3, 0, 0, 0, 4, 0, 0, 0] + [];
  }

  lemma StrBytes()
    ensures SerializeValue(Str([97, 98])) == [2, 0, 0, 0, 97, 98]
  {
    U32OfByte(2);
  }

  lemma LineSerializes()
    ensures Serialize(LineValue) == LineBytes
  {
    var vs := LineValue.values;
    RefBytes();
    RefsBytes();
    StrBytes();
    var a, p, l := SerializeValue(vs[0]), SerializeValue(vs[1]), SerializeValue(vs[2]);
    assert SerializeValues(vs[2..]) == l + [];
    assert SerializeValues(vs[1..]) == p + SerializeValues(vs[2..]);
    assert SerializeValues(vs) == a + SerializeValues(vs[1..]);
  }

  lemma LineFieldA()
    ensures ValueConforms(ExampleDefinition, ExampleCatalog,
      PlanField(ExampleDefinition, ExampleCatalog, LineModel.fields[0]), LineValue.values[0])
    ensures ValueNilFree(LineValue.values[0])
  {
    PointConforms(1, 2);
    PointBytes(1, 2);
    assert GetModelByName(ExampleDefinition, "Point") == Some(PointModel);
    assert PlanField(ExampleDefinition, ExampleCatalog, LineModel.fields[0]) == Nested(PointModel);
  }

  lemma LineFieldPoints()
    ensures ValueConforms(ExampleDefinition, ExampleCatalog,
      PlanField(ExampleDefinition, ExampleCatalog, LineModel.fields[1]), LineValue.values[1])
    ensures ValueNilFree(LineValue.values[1])
  {
    PointConforms(3, 4);
    PointBytes(3, 4);
    assert GetModelByName(ExampleDefinition, "Point") == Some(PointModel);
    assert PlanField(ExampleDefinition, ExampleCatalog, LineModel.fields[1]) == NestedArray(PointModel);
    assert LineValue.values[1].targets[0] == PointValue(3, 4);
  }

  lemma LineFieldLabel()
    ensures ValueConforms(ExampleDefinition, ExampleCatalog,
      PlanField(ExampleDefinition, ExampleCatalog, LineModel.fields[2]), LineValue.values[2])
  {
    assert PlanField(ExampleDefinition, ExampleCatalog, LineModel.fields[2]) == Text;
  }

  lemma LineConforms()
    ensures Conforms(ExampleDefinition, ExampleCatalog, LineModel, LineValue)
    ensures NilFree(LineValue)
  {
    var vs := LineValue.values;
    forall i | 0 <= i < |vs|
      ensures ValueConforms(ExampleDefinition, ExampleCatalog,
        PlanField(ExampleDefinition, ExampleCatalog, LineModel.fields[i]), vs[i])
      ensures ValueNilFree(vs[i])
    {
      if i == 0 {
        LineFieldA();
      } else if i == 1 {
        LineFieldPoints();
      } else {
        LineFieldLabel();
      }
    }
  }

  /** The exact bytes decode back to the Line. */
  lemma LineDecodes()
    ensures Deserialize(ExampleDefinition, ExampleCatalog, LineModel, LineBytes) == Ok(LineValue)
  {
    LineConforms();
    LineSerializes();
    RoundTrip(ExampleDefinition, ExampleCatalog, LineModel, LineValue, []);
    assert LineBytes + [] == LineBytes;
  }

  /** The sentinel is not unique: an object whose one field is a zero byte serializes like nil. */
  lemma SentinelAmbiguous()
    ensures Serialize(Obj([Raw([0])])) == Serialize(Nil)
  {
  }
}
