/**
 * The payload read of the emitted deserializer as the Go code writes it:
 * one `buf.Read` into a freshly made slice of the announced length, on a
 * `bytes.Reader`. That call fails with `io.EOF` whenever the reader is at
 * the end of its input, even for an empty slice, and otherwise copies as
 * many bytes as remain, up to the slice length, without an error. The
 * decoder in `Codec` reads exactly the announced length instead; the lemmas
 * here show where the two part.
 */
module PayloadRead {
  import opened Wrappers
  import opened Schema
  import opened Wire
  import opened Codec
  import CodecLaws

  /**
   * `make([]byte, n)` then `buf.Read` of it: at end of input the read fails;
   * otherwise the first `min(n, |data|)` bytes are copied and the rest of the
   * slice keeps its zero bytes.
   */
  function ReaderRead(data: seq<Byte>, n: nat): (r: Result<(seq<Byte>, seq<Byte>), DecodeError>)
    ensures r.Err? <==> |data| == 0
    ensures r.Ok? ==> |r.value.0| == n && IsSuffix(r.value.1, data)
  {
    if |data| == 0 then Err(Truncated)
    else
      var k := if n <= |data| then n else |data|;
      Ok((data[..k] + seq(n - k, _ => 0), data[k..]))
  }

  /** A length prefix, then the payload read the way the emitted code reads it. */
  function ReadPrefixedAsWritten(data: seq<Byte>): (r: Result<(seq<Byte>, seq<Byte>), DecodeError>)
    ensures r.Ok? <==> 4 < |data|
    ensures r.Ok? ==> |r.value.0| == FromLittleEndian(data[..4]) && IsSuffix(r.value.1, data)
    ensures r.Err? ==> r.error == Truncated
  {
    match ReadU32(data)
    case Err(e) => Err(e)
    case Ok((n, rest)) => ReaderRead(rest, n)
  }

  /**
   * The Go read and the exact read agree precisely when some input is left
   * and the payload fits in it, or when no input is left and a nonempty
   * payload was announced (both fail).
   */
  lemma ReadsAgree(data: seq<Byte>, n: nat)
    ensures ReaderRead(data, n) == ReadN(data, n) <==>
      (0 < |data| && n <= |data|) || (|data| == 0 && n > 0)
  {
    if 0 < |data| && n <= |data| {
      assert seq(n - n, _ => 0) == [];
      assert data[..n] + [] == data[..n];
    }
  }

  /** An empty payload at the end of the message is rejected by the Go read and accepted by the exact one. */
  lemma EmptyPayloadAtEnd()
    ensures ReadPrefixedAsWritten(SerializeValue(Str([]))) == Err(Truncated)
    ensures ReadPrefixed(SerializeValue(Str([]))) == Ok(([], []))
  {
    U32RoundTrip(0, []);
    assert SerializeValue(Str([])) == U32(0) + [];
  }

  /**
   * A payload cut short is accepted by the Go read, padded with zero bytes,
   * and rejected by the exact one.
   */
  lemma ShortPayloadAccepted(data: seq<Byte>, n: nat)
    requires 0 < |data| < n
    ensures ReaderRead(data, n) == Ok((data + seq(n - |data|, _ => 0), []))
    ensures ReadN(data, n) == Err(Truncated)
  {
    assert data[..|data|] == data;
  }

  /**
   * So a one-field text message whose text is empty fails to decode as
   * written, although its serialization is exactly the four bytes of the
   * zero length, while the exact decoder reads it back.
   */
  lemma EmptyTextAsWritten(def: Definition, cat: Catalog, m: Model)
    requires |m.fields| == 1 && m.fields[0].typeName == cat.stringType
    ensures Serialize(Obj([Str([])])) == [0, 0, 0, 0]
    ensures ReadPrefixedAsWritten(Serialize(Obj([Str([])]))) == Err(Truncated)
    ensures Deserialize(def, cat, m, Serialize(Obj([Str([])]))) == Ok(Obj([Str([])]))
  {
    var b := Serialize(Obj([Str([])]));
    assert SerializeValues([Str([])]) == SerializeValue(Str([])) + SerializeValues([]);
    assert b == U32(0) + [];
    assert U32(0) == [0, 0, 0, 0];
    EmptyPayloadAtEnd();
    assert b == SerializeValue(Str([])) + [];
    var inst := Obj([Str([])]);
    assert ValueConforms(def, cat, PlanField(def, cat, m.fields[0]), inst.values[0]);
    assert Conforms(def, cat, m, inst) && NilFree(inst);
    CodecLaws.RoundTrip(def, cat, m, inst, []);
    assert Serialize(inst) + [] == b;
  }
}
