/**
 * Properties of the wire codec: the decoder reads back what the encoder
 * wrote, a truncated message is always rejected, the decoder never yields a
 * nil pointer (so the nil sentinel does not round-trip), and the instance
 * `CloneEmpty` returns round-trips exactly when its model has no single
 * nested field.
 */
module CodecLaws {
  import opened Wrappers
  import opened Schema
  import opened Wire
  import opened Codec

  // ------------------------------------------------------------ round trip

  /**
   * A prefixed read succeeds exactly when the four prefix bytes and the
   * announced number of payload bytes remain, and then the payload has the
   * announced length.
   */
  lemma ReadPrefixedOutcome(data: seq<Byte>)
    ensures ReadPrefixed(data).Ok? <==> 4 <= |data| && FromLittleEndian(data[..4]) <= |data| - 4
    ensures ReadPrefixed(data).Ok? ==> |ReadPrefixed(data).value.0| == FromLittleEndian(data[..4])
  {
  }

  lemma PrefixedRoundTrip(b: seq<Byte>, rest: seq<Byte>)
    requires |b| < Two32
    ensures ReadPrefixed(U32(|b|) + b + rest) == Ok((b, rest))
  {
    U32RoundTrip(|b|, b + rest);
    assert U32(|b|) + b + rest == U32(|b|) + (b + rest);
    assert (b + rest)[..|b|] == b && (b + rest)[|b|..] == rest;
  }

  lemma {:induction false} BlocksRoundTrip(cat: Catalog, t: string, bs: seq<seq<Byte>>, rest: seq<Byte>)
    requires t in cat.widths
    requires forall i :: 0 <= i < |bs| ==> |bs[i]| == cat.widths[t]
    ensures DecodeBlocks(cat, t, |bs|, Flatten(bs) + rest) == Ok((bs, rest))
  {
    if bs != [] {
      var tail := Flatten(bs[1..]) + rest;
      assert Flatten(bs) + rest == bs[0] + tail;
      assert (bs[0] + tail)[..|bs[0]|] == bs[0] && (bs[0] + tail)[|bs[0]|..] == tail;
      BlocksRoundTrip(cat, t, bs[1..], rest);
      assert [bs[0]] + bs[1..] == bs;
    }
  }

  /** Decoding the serialization of a conforming, nil-free object gives it back; trailing bytes are ignored. */
  lemma {:induction false} RoundTrip(def: Definition, cat: Catalog, m: Model, inst: Instance, extra: seq<Byte>)
    requires Conforms(def, cat, m, inst) && NilFree(inst)
    ensures Deserialize(def, cat, m, Serialize(inst) + extra) == Ok(inst)
    decreases inst
  {
    FieldsRoundTrip(def, cat, m.fields, inst.values, extra);
  }

  lemma {:induction false} FieldsRoundTrip(def: Definition, cat: Catalog, fs: seq<Field>, vs: seq<Value>, rest: seq<Byte>)
    requires |vs| == |fs|
    requires forall i :: 0 <= i < |vs| ==>
      ValueConforms(def, cat, PlanField(def, cat, fs[i]), vs[i]) && ValueNilFree(vs[i])
    ensures DecodeFields(def, cat, fs, SerializeValues(vs) + rest) == Ok((vs, rest))
    decreases vs
  {
    if vs != [] {
      var tail := SerializeValues(vs[1..]) + rest;
      var data := SerializeValues(vs) + rest;
      assert data == SerializeValue(vs[0]) + tail;
      ValueRoundTrip(def, cat, PlanField(def, cat, fs[0]), vs[0], tail);
      FieldsRoundTrip(def, cat, fs[1..], vs[1..], rest);
      DecodeFieldsStep(def, cat, fs, data, vs[0], tail, vs[1..], rest);
      assert [vs[0]] + vs[1..] == vs;
    }
  }

  /** One step of the field loop: the first field, then the others from where it stopped. */
  lemma DecodeFieldsStep(def: Definition, cat: Catalog, fs: seq<Field>, data: seq<Byte>,
                         v: Value, mid: seq<Byte>, vs: seq<Value>, rest: seq<Byte>)
    requires fs != []
    requires DecodeField(def, cat, PlanField(def, cat, fs[0]), data) == Ok((v, mid))
    requires DecodeFields(def, cat, fs[1..], mid) == Ok((vs, rest))
    ensures DecodeFields(def, cat, fs, data) == Ok(([v] + vs, rest))
  {
  }

  lemma {:induction false} ValueRoundTrip(def: Definition, cat: Catalog, s: Strategy, v: Value, rest: seq<Byte>)
    requires ValueConforms(def, cat, s, v) && ValueNilFree(v)
    ensures DecodeField(def, cat, s, SerializeValue(v) + rest) == Ok((v, rest))
    decreases v
  {
    var data := SerializeValue(v) + rest;
    match v
    case Str(b) =>
      PrefixedRoundTrip(b, rest);
      PrefixedStep(def, cat, s, data, b, rest);
    case Bin(b) =>
      PrefixedRoundTrip(b, rest);
      PrefixedStep(def, cat, s, data, b, rest);
    case Stamp(n) =>
      I64RoundTrip(n, rest);
    case Raw(b) =>
      assert (b + rest)[..|b|] == b && (b + rest)[|b|..] == rest;
    case Ref(t) =>
      var e := Serialize(t);
      PrefixedRoundTrip(e, rest);
      RoundTrip(def, cat, s.model, t, []);
      assert e + [] == e;
      NestedStep(def, cat, s.model, data, e, rest);
    case Raws(bs) =>
      U32RoundTrip(|bs|, Flatten(bs) + rest);
      assert data == U32(|bs|) + (Flatten(bs) + rest);
      BlocksRoundTrip(cat, s.typeName, bs, rest);
      ScalarArrayStep(def, cat, s.typeName, data, |bs|, Flatten(bs) + rest, bs, rest);
    case Refs(ts) =>
      U32RoundTrip(|ts|, SerializeTargets(ts) + rest);
      assert data == U32(|ts|) + (SerializeTargets(ts) + rest);
      TargetsRoundTrip(def, cat, s.model, ts, rest);
      NestedArrayStep(def, cat, s.model, data, |ts|, SerializeTargets(ts) + rest, ts, rest);
  }

  // One read of each strategy that goes through a length prefix or a count.

  lemma PrefixedStep(def: Definition, cat: Catalog, s: Strategy, data: seq<Byte>, b: seq<Byte>, rest: seq<Byte>)
    requires ReadPrefixed(data) == Ok((b, rest))
    ensures s == Text ==> DecodeField(def, cat, s, data) == Ok((Str(b), rest))
    ensures s == Blob ==> DecodeField(def, cat, s, data) == Ok((Bin(b), rest))
  {
  }

  lemma NestedStep(def: Definition, cat: Catalog, nm: Model, data: seq<Byte>, payload: seq<Byte>, rest: seq<Byte>)
    requires ReadPrefixed(data) == Ok((payload, rest))
    ensures DecodeField(def, cat, Nested(nm), data) ==
      match Deserialize(def, cat, nm, payload)
      case Err(e) => Err(e)
      case Ok(t) => Ok((Ref(t), rest))
  {
  }

  lemma ScalarArrayStep(def: Definition, cat: Catalog, t: string, data: seq<Byte>,
                        n: nat, mid: seq<Byte>, bs: seq<seq<Byte>>, rest: seq<Byte>)
    requires ReadU32(data) == Ok((n, mid)) && DecodeBlocks(cat, t, n, mid) == Ok((bs, rest))
    ensures DecodeField(def, cat, ScalarArray(t), data) == Ok((Raws(bs), rest))
  {
  }

  lemma NestedArrayStep(def: Definition, cat: Catalog, nm: Model, data: seq<Byte>,
                        n: nat, mid: seq<Byte>, ts: seq<Instance>, rest: seq<Byte>)
    requires ReadU32(data) == Ok((n, mid)) && DecodeTargets(def, cat, nm, n, mid) == Ok((ts, rest))
    ensures DecodeField(def, cat, NestedArray(nm), data) == Ok((Refs(ts), rest))
  {
  }

  /** One target read: its prefixed payload is decoded as an object, then the remaining targets. */
  lemma TargetsStep(def: Definition, cat: Catalog, nm: Model, n: nat, data: seq<Byte>,
                    payload: seq<Byte>, rest: seq<Byte>, inst: Instance)
    requires n > 0 && ReadPrefixed(data) == Ok((payload, rest)) && Deserialize(def, cat, nm, payload) == Ok(inst)
    ensures var tail := DecodeTargets(def, cat, nm, n - 1, rest);
      DecodeTargets(def, cat, nm, n, data) ==
        if tail.Ok? then Ok(([inst] + tail.value.0, tail.value.1)) else Err(tail.error)
  {
  }

  /** Nested elements read in front of further elements that decode: the first one, then the others. */
  lemma TargetsCons(def: Definition, cat: Catalog, nm: Model, n: nat, data: seq<Byte>, payload: seq<Byte>,
                    rest: seq<Byte>, inst: Instance, insts: seq<Instance>, tail: seq<Byte>)
    requires n == |insts| + 1
    requires ReadPrefixed(data) == Ok((payload, rest)) && Deserialize(def, cat, nm, payload) == Ok(inst)
    requires DecodeTargets(def, cat, nm, |insts|, rest) == Ok((insts, tail))
    ensures DecodeTargets(def, cat, nm, n, data) == Ok(([inst] + insts, tail))
  {
    TargetsStep(def, cat, nm, n, data, payload, rest, inst);
  }

  lemma {:induction false} TargetsRoundTrip(def: Definition, cat: Catalog, nm: Model, ts: seq<Instance>, rest: seq<Byte>)
    requires forall i :: 0 <= i < |ts| ==>
      Conforms(def, cat, nm, ts[i]) && |Serialize(ts[i])| < Two32 && NilFree(ts[i])
    ensures DecodeTargets(def, cat, nm, |ts|, SerializeTargets(ts) + rest) == Ok((ts, rest))
    decreases ts
  {
    if ts != [] {
      var t, more := ts[0], ts[1..];
      var e := Serialize(t);
      var tail := SerializeTargets(more) + rest;
      var data := SerializeTargets(ts) + rest;
      assert data == U32(|e|) + e + tail;
      PrefixedRoundTrip(e, tail);
      RoundTrip(def, cat, nm, t, []);
      assert e + [] == e;
      TargetsRoundTrip(def, cat, nm, more, rest);
      assert [t] + more == ts;
      TargetsCons(def, cat, nm, |ts|, data, e, tail, t, more, rest);
    }
  }

  // ------------------------------------------- reads only look at their bytes

  lemma ReadNExtends(data: seq<Byte>, n: nat, extra: seq<Byte>)
    requires n <= |data|
    ensures ReadN(data + extra, n) == Ok((data[..n], data[n..] + extra))
  {
    assert (data + extra)[..n] == data[..n];
    assert (data + extra)[n..] == data[n..] + extra;
  }

  lemma ReadPrefixedExtends(data: seq<Byte>, extra: seq<Byte>)
    requires ReadPrefixed(data).Ok?
    ensures ReadPrefixed(data + extra) == Ok((ReadPrefixed(data).value.0, ReadPrefixed(data).value.1 + extra))
  {
    ReadNExtends(data, 4, extra);
    var n := ReadU32(data).value.0;
    ReadNExtends(data[4..], n, extra);
  }

  /** A field decoded from a prefix of the input decodes the same way from the whole input. */
  lemma FieldExtends(def: Definition, cat: Catalog, s: Strategy, data: seq<Byte>, extra: seq<Byte>)
    requires DecodeField(def, cat, s, data).Ok?
    ensures DecodeField(def, cat, s, data + extra)
         == Ok((DecodeField(def, cat, s, data).value.0, DecodeField(def, cat, s, data).value.1 + extra))
  {
    match s
    case Text => ReadPrefixedExtends(data, extra);
    case Blob => ReadPrefixedExtends(data, extra);
    case Timestamp => ReadNExtends(data, 8, extra);
    case Scalar(t) => ReadNExtends(data, cat.widths[t], extra);
    case Nested(nm) => ReadPrefixedExtends(data, extra);
    case ScalarArray(t) =>
      ReadNExtends(data, 4, extra);
      BlocksExtends(cat, t, ReadU32(data).value.0, data[4..], extra);
    case NestedArray(nm) =>
      ReadNExtends(data, 4, extra);
      TargetsExtends(def, cat, nm, ReadU32(data).value.0, data[4..], extra);
  }

  lemma {:induction false} BlocksExtends(cat: Catalog, t: string, n: nat, data: seq<Byte>, extra: seq<Byte>)
    requires DecodeBlocks(cat, t, n, data).Ok?
    ensures DecodeBlocks(cat, t, n, data + extra)
         == Ok((DecodeBlocks(cat, t, n, data).value.0, DecodeBlocks(cat, t, n, data).value.1 + extra))
  {
    if n > 0 {
      ReadNExtends(data, cat.widths[t], extra);
      BlocksExtends(cat, t, n - 1, data[cat.widths[t]..], extra);
    }
  }

  lemma {:induction false} TargetsExtends(def: Definition, cat: Catalog, nm: Model, n: nat, data: seq<Byte>, extra: seq<Byte>)
    requires DecodeTargets(def, cat, nm, n, data).Ok?
    ensures DecodeTargets(def, cat, nm, n, data + extra)
         == Ok((DecodeTargets(def, cat, nm, n, data).value.0, DecodeTargets(def, cat, nm, n, data).value.1 + extra))
  {
    if n > 0 {
      ReadPrefixedExtends(data, extra);
      TargetsExtends(def, cat, nm, n - 1, ReadPrefixed(data).value.1, extra);
    }
  }

  lemma {:induction false} FieldsExtends(def: Definition, cat: Catalog, fs: seq<Field>, data: seq<Byte>, extra: seq<Byte>)
    requires DecodeFields(def, cat, fs, data).Ok?
    ensures DecodeFields(def, cat, fs, data + extra)
         == Ok((DecodeFields(def, cat, fs, data).value.0, DecodeFields(def, cat, fs, data).value.1 + extra))
  {
    if fs != [] {
      var s := PlanField(def, cat, fs[0]);
      FieldExtends(def, cat, s, data, extra);
      FieldsExtends(def, cat, fs[1..], DecodeField(def, cat, s, data).value.1, extra);
    }
  }

  // ------------------------------------------------------------ truncation

  /**
   * Scalar blocks read from a prefix of input they decode from: either the
   * same blocks or a truncation error, never a type error.
   */
  lemma {:induction false} BlocksPrefix(cat: Catalog, t: string, n: nat, data: seq<Byte>, tail: seq<Byte>)
    requires DecodeBlocks(cat, t, n, data + tail).Ok?
    ensures DecodeBlocks(cat, t, n, data).Ok? || DecodeBlocks(cat, t, n, data) == Err(Truncated)
  {
    if n > 0 && ReadN(data, cat.widths[t]).Ok? {
      var w := cat.widths[t];
      ReadNExtends(data, w, tail);
      BlocksPrefix(cat, t, n - 1, data[w..], tail);
    }
  }

  /** Nested elements read from a prefix of input they decode from: the same elements or truncation. */
  lemma {:induction false} TargetsPrefix(def: Definition, cat: Catalog, nm: Model, n: nat, data: seq<Byte>, tail: seq<Byte>)
    requires DecodeTargets(def, cat, nm, n, data + tail).Ok?
    ensures DecodeTargets(def, cat, nm, n, data).Ok? || DecodeTargets(def, cat, nm, n, data) == Err(Truncated)
  {
    if n > 0 && ReadPrefixed(data).Ok? {
      ReadPrefixedExtends(data, tail);
      TargetsPrefix(def, cat, nm, n - 1, ReadPrefixed(data).value.1, tail);
    }
  }

  /** One field read from a prefix of input it decodes from: success or truncation, never a type error. */
  lemma FieldPrefix(def: Definition, cat: Catalog, s: Strategy, data: seq<Byte>, tail: seq<Byte>)
    requires DecodeField(def, cat, s, data + tail).Ok?
    ensures DecodeField(def, cat, s, data).Ok? || DecodeField(def, cat, s, data) == Err(Truncated)
  {
    match s
    case Text =>
    case Blob =>
    case Timestamp =>
    case Scalar(t) =>
    case Nested(nm) =>
      if ReadPrefixed(data).Ok? {
        ReadPrefixedExtends(data, tail);
      }
    case ScalarArray(t) =>
      if 4 <= |data| {
        ReadNExtends(data, 4, tail);
        BlocksPrefix(cat, t, ReadU32(data).value.0, data[4..], tail);
      }
    case NestedArray(nm) =>
      if 4 <= |data| {
        ReadNExtends(data, 4, tail);
        TargetsPrefix(def, cat, nm, ReadU32(data).value.0, data[4..], tail);
      }
  }

  lemma {:induction false} FieldsPrefix(def: Definition, cat: Catalog, fs: seq<Field>, data: seq<Byte>, tail: seq<Byte>)
    requires DecodeFields(def, cat, fs, data + tail).Ok?
    ensures DecodeFields(def, cat, fs, data).Ok? || DecodeFields(def, cat, fs, data) == Err(Truncated)
  {
    if fs != [] {
      var s := PlanField(def, cat, fs[0]);
      FieldPrefix(def, cat, s, data, tail);
      if DecodeField(def, cat, s, data).Ok? {
        FieldExtends(def, cat, s, data, tail);
        FieldsPrefix(def, cat, fs[1..], DecodeField(def, cat, s, data).value.1, tail);
      }
    }
  }

  /**
   * The decoder only ever fails on a prefix of input it accepts by running
   * out of bytes: cutting input short never turns into a type error.
   */
  lemma PrefixOnlyTruncates(def: Definition, cat: Catalog, m: Model, data: seq<Byte>, tail: seq<Byte>)
    requires Deserialize(def, cat, m, data + tail).Ok?
    ensures Deserialize(def, cat, m, data).Ok? || Deserialize(def, cat, m, data) == Err(Truncated)
  {
    FieldsPrefix(def, cat, m.fields, data, tail);
  }

  /**
   * Every strict prefix of a serialized conforming, nil-free object is
   * rejected with a truncation error: the decoder never returns a partial
   * or zero-filled result.
   */
  lemma TruncationDetected(def: Definition, cat: Catalog, m: Model, inst: Instance, k: nat)
    requires Conforms(def, cat, m, inst) && NilFree(inst)
    requires k < |Serialize(inst)|
    ensures Deserialize(def, cat, m, Serialize(inst)[..k]) == Err(Truncated)
  {
    var e := Serialize(inst);
    var prefix, tail := e[..k], e[k..];
    assert prefix + tail == e && |tail| > 0;
    FieldsRoundTrip(def, cat, m.fields, inst.values, []);
    assert e + [] == e;
    FieldsPrefix(def, cat, m.fields, prefix, tail);
    if DecodeFields(def, cat, m.fields, prefix).Ok? {
      FieldsExtends(def, cat, m.fields, prefix, tail);
      assert false;
    }
  }

  // ------------------------------------------------------ decoded, never nil

  /** The decoder allocates every object it fills, so a decoded instance holds no nil. */
  lemma {:induction false} DecodedNilFree(def: Definition, cat: Catalog, m: Model, data: seq<Byte>)
    requires Deserialize(def, cat, m, data).Ok?
    ensures NilFree(Deserialize(def, cat, m, data).value)
    decreases |data|, 2, 0
  {
    FieldsNilFree(def, cat, m.fields, data);
  }

  /** A successful read of a nonempty field list is its first field, then the others from where it stopped. */
  lemma FieldsOk(def: Definition, cat: Catalog, fs: seq<Field>, data: seq<Byte>)
    requires fs != [] && DecodeFields(def, cat, fs, data).Ok?
    ensures DecodeField(def, cat, PlanField(def, cat, fs[0]), data).Ok?
    ensures var (v, rest) := DecodeField(def, cat, PlanField(def, cat, fs[0]), data).value;
      |rest| <= |data| && DecodeFields(def, cat, fs[1..], rest).Ok? &&
      DecodeFields(def, cat, fs, data).value.0 == [v] + DecodeFields(def, cat, fs[1..], rest).value.0
  {
  }

  lemma {:induction false} FieldsNilFree(def: Definition, cat: Catalog, fs: seq<Field>, data: seq<Byte>)
    requires DecodeFields(def, cat, fs, data).Ok?
    ensures forall i :: 0 <= i < |fs| ==> ValueNilFree(DecodeFields(def, cat, fs, data).value.0[i])
    decreases |data|, 1, |fs|
  {
    if fs != [] {
      FieldsOk(def, cat, fs, data);
      var s := PlanField(def, cat, fs[0]);
      var (v, rest) := DecodeField(def, cat, s, data).value;
      FieldNilFree(def, cat, s, data);
      FieldsNilFree(def, cat, fs[1..], rest);
      ValueNilFreeCons(v, DecodeFields(def, cat, fs[1..], rest).value.0);
    }
  }

  lemma ValueNilFreeCons(v: Value, vs: seq<Value>)
    requires ValueNilFree(v) && forall i :: 0 <= i < |vs| ==> ValueNilFree(vs[i])
    ensures forall i :: 0 <= i < |[v] + vs| ==> ValueNilFree(([v] + vs)[i])
  {
    forall i | 0 < i < |[v] + vs|
      ensures ValueNilFree(([v] + vs)[i])
    {
      assert ([v] + vs)[i] == vs[i - 1];
    }
  }

  lemma {:induction false} FieldNilFree(def: Definition, cat: Catalog, s: Strategy, data: seq<Byte>)
    requires DecodeField(def, cat, s, data).Ok?
    ensures ValueNilFree(DecodeField(def, cat, s, data).value.0)
    decreases |data|, 0, 0
  {
    match s
    case Nested(nm) =>
      DecodedNilFree(def, cat, nm, ReadPrefixed(data).value.0);
    case NestedArray(nm) =>
      TargetsNilFree(def, cat, nm, ReadU32(data).value.0, data[4..]);
    case _ =>
  }

  /** A successful read of `n > 0` targets is one prefixed object followed by `n - 1` more. */
  lemma TargetsOk(def: Definition, cat: Catalog, nm: Model, n: nat, data: seq<Byte>)
      returns (payload: seq<Byte>, rest: seq<Byte>)
    requires n > 0 && DecodeTargets(def, cat, nm, n, data).Ok?
    ensures |payload| < |data| && |rest| < |data|
    ensures Deserialize(def, cat, nm, payload).Ok? && DecodeTargets(def, cat, nm, n - 1, rest).Ok?
    ensures DecodeTargets(def, cat, nm, n, data).value.0 ==
      [Deserialize(def, cat, nm, payload).value] + DecodeTargets(def, cat, nm, n - 1, rest).value.0
  {
    payload, rest := ReadPrefixed(data).value.0, ReadPrefixed(data).value.1;
  }

  /** Every instance of the sequence is allocated, and so is everything nested in it. */
  predicate AllNilFree(ts: seq<Instance>)
  {
    forall i :: 0 <= i < |ts| ==> NilFree(ts[i])
  }

  lemma {:induction false} TargetsNilFree(def: Definition, cat: Catalog, nm: Model, n: nat, data: seq<Byte>)
    requires DecodeTargets(def, cat, nm, n, data).Ok?
    ensures AllNilFree(DecodeTargets(def, cat, nm, n, data).value.0)
    decreases |data|, 0, n
  {
    if n > 0 {
      var payload, rest := TargetsOk(def, cat, nm, n, data);
      DecodedNilFree(def, cat, nm, payload);
      TargetsNilFree(def, cat, nm, n - 1, rest);
      NilFreeCons(Deserialize(def, cat, nm, payload).value, DecodeTargets(def, cat, nm, n - 1, rest).value.0);
    }
  }

  lemma NilFreeCons(t: Instance, ts: seq<Instance>)
    requires NilFree(t) && AllNilFree(ts)
    ensures AllNilFree([t] + ts)
  {
    forall i | 0 < i < |[t] + ts|
      ensures NilFree(([t] + ts)[i])
    {
      assert ([t] + ts)[i] == ts[i - 1];
    }
  }

  /**
   * For a conforming object, the round trip holds exactly when no pointer in
   * it is nil: a nil nested value comes back as an allocated object or an error.
   */
  lemma RoundTripIff(def: Definition, cat: Catalog, m: Model, inst: Instance, extra: seq<Byte>)
    requires Conforms(def, cat, m, inst)
    ensures Deserialize(def, cat, m, Serialize(inst) + extra) == Ok(inst) <==> NilFree(inst)
  {
    if NilFree(inst) {
      RoundTrip(def, cat, m, inst, extra);
    } else if Deserialize(def, cat, m, Serialize(inst) + extra).Ok? {
      DecodedNilFree(def, cat, m, Serialize(inst) + extra);
    }
  }

  /**
   * A nil receiver serializes to the one byte 0, and no input, the sentinel
   * included, deserializes back to nil.
   */
  lemma NilSentinel(def: Definition, cat: Catalog, m: Model, data: seq<Byte>)
    ensures Serialize(Nil) == [0]
    ensures Deserialize(def, cat, m, data) != Ok(Nil)
  {
    if Deserialize(def, cat, m, data).Ok? {
      DecodedNilFree(def, cat, m, data);
    }
  }

  /**
   * The decoder reads the nil sentinel as field data: a model without
   * fields decodes it to an empty object, and a model whose first field
   * needs two or more bytes rejects it as truncated.
   */
  lemma SentinelReadAsFields(def: Definition, cat: Catalog, m: Model)
    ensures m.fields == [] ==> Deserialize(def, cat, m, [0]) == Ok(Obj([]))
    ensures m.fields != [] && NeedsTwoBytes(cat, PlanField(def, cat, m.fields[0]))
      ==> Deserialize(def, cat, m, [0]) == Err(Truncated)
  {
    if m.fields != [] {
      var s := PlanField(def, cat, m.fields[0]);
      if NeedsTwoBytes(cat, s) {
        ShortInputTruncated(def, cat, s, [0]);
      }
    }
  }

  /** Every strategy except a narrow scalar reads at least two bytes before anything else. */
  lemma ShortInputTruncated(def: Definition, cat: Catalog, s: Strategy, data: seq<Byte>)
    requires NeedsTwoBytes(cat, s) && |data| < 2
    ensures DecodeField(def, cat, s, data) == Err(Truncated)
  {
    match s
    case Text =>
    case Blob =>
    case Timestamp =>
    case Scalar(t) =>
    case Nested(_) =>
    case ScalarArray(_) =>
    case NestedArray(_) =>
  }

  predicate NeedsTwoBytes(cat: Catalog, s: Strategy)
  {
    !s.Scalar? || (s.typeName in cat.widths && cat.widths[s.typeName] >= 2)
  }

  // ------------------------------------------------------------ CloneEmpty

  /**
   * The fresh instance `CloneEmpty` returns survives a serialize/deserialize
   * round trip exactly when its model has no single nested field: that
   * field's nil pointer is written as the sentinel and read back as an
   * allocated object or an error.
   */
  lemma CloneRoundTripIff(def: Definition, cat: Catalog, m: Model, extra: seq<Byte>)
    requires ScalarsSized(def, cat, m)
    ensures var z := CloneEmpty(def, cat, m, Obj([]));
      Deserialize(def, cat, m, Serialize(z) + extra) == Ok(z) <==>
      forall i :: 0 <= i < |m.fields| ==> !PlanField(def, cat, m.fields[i]).Nested?
  {
    var z := CloneEmpty(def, cat, m, Obj([]));
    RoundTripIff(def, cat, m, z, extra);
  }
}
