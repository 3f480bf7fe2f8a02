# Go backend of the CCL code generator, modelled in Dafny

CCL is a small schema language. A definition lists models, and each model has
an id and typed fields. A field's type is a primitive (string, bytes,
datetime or a fixed-width scalar), the name of another model, and either of
these may be an array. The Go backend turns a parsed definition into five Go
source files:

- a constants file with one `ModelId<Name> = <id>` per model;
- a vars file and a helpers file that hold only the header;
- a types file with the `time` import when a DateTime field exists, the
  `Serializable` interface and one struct per model;
- a methods file with `GetModelId`, `CloneEmpty`, `CloneEmptySerializable`,
  `SerializeBinary` and `DeserializeBinary` for each model.

The model has three layers.

- **The emitter** (`GoGeneration.GoGenerationContext`, in `context.dfy`) is a
  class with one buffer per output file. Its passes fill the buffers step by
  step with loops. Each pass is proved against a specification function in
  `GoEmitter` (`emitter.dfy`) or `GoTypes` (`gotypes.dfy`), and the
  properties of the generated text are lemmas about those functions. Examples:
  the constants file reads back as the model ids, the types pass reports the
  first field whose type is unsupported, and the `time` import appears exactly
  when some field is a DateTime.
- **The binary wire format** that the emitted `SerializeBinary` and
  `DeserializeBinary` bodies implement (`Wire` in `wire.dfy`, `Codec` in
  `codec.dfy`), as pure functions, with:
  - a field plan (`PlanField`) that follows the emitter's switch case by case;
  - an encoder driven by the value and a decoder driven by the plan;
  - round-trip, truncation, nil-sentinel and clone lemmas in `CodecLaws`
    (`codec_laws.dfy`);
  - a worked two-model example in `CodecExample` (`codec_example.dfy`).
- **The payload read as the emitted Go code performs it** (`PayloadRead`,
  `reader.dfy`). It differs from the exact read the rest of the model uses;
  see Findings.

Parameters stand in for what lives outside the emitter:

- The type catalog (`Schema.Catalog`):
  - the table from CCL primitive names to Go types;
  - the three keyword type names;
  - the byte width of each scalar type.
- The language name used in errors.
- The host path separator and the five output file names (`GoEmitter.Backend`).

`GetModelByName` and `IsCustomType` are modelled as the first model with that
name.

## Model

| member | source | states |
|---|---|---|
| Schema.GetModelByName | src/cclGenerators/goGenerator/methods.go:141-143 | a model is found exactly when the definition has one of that name, and the one found has that name and belongs to the definition |
| Wire.LittleEndian | src/cclGenerators/goGenerator/methods.go:233 | a number written in `k` bytes as `binary.LittleEndian` writes it has exactly `k` bytes |
| Wire.FromLittleEndian | src/cclGenerators/goGenerator/methods.go:316 | reading `k` little-endian bytes gives a number below 256^k |
| Wire.LittleEndianRoundTrip | src/cclGenerators/goGenerator/methods.go:233-316 | a number below 256^k written in `k` little-endian bytes reads back as itself |
| Wire.U32 | src/cclGenerators/goGenerator/methods.go:233 | the `uint32(len(...))` length prefix is four bytes |
| Wire.U32Wraps | src/cclGenerators/goGenerator/methods.go:233 | the `uint32` conversion wraps: lengths that differ by 2^32 give the same prefix |
| Wire.U32RoundTrip | src/cclGenerators/goGenerator/methods.go:315-318 | a length below 2^32 reads back from its prefix, and the rest of the input is untouched |
| Wire.I64 | src/cclGenerators/goGenerator/methods.go:247 | an `int64` UnixNano is written as eight bytes |
| Wire.WrapInt64 | src/cclGenerators/goGenerator/methods.go:247 | reducing a nanosecond count to `int64` gives a value in the int64 range that is congruent to it modulo 2^64 |
| Wire.I64RoundTrip | src/cclGenerators/goGenerator/methods.go:335-338 | an int64 reads back from its eight bytes, and the rest of the input is untouched |
| Wire.ReadU32 | src/cclGenerators/goGenerator/methods.go:315-318 | a `uint32` read succeeds exactly when four bytes remain, gives a value below 2^32 and consumes four bytes; otherwise it is a truncation error |
| Wire.ReadI64 | src/cclGenerators/goGenerator/methods.go:335-338 | an `int64` read succeeds exactly when eight bytes remain, gives a value in the int64 range and consumes eight bytes; otherwise it is a truncation error |
| Wire.ReadN | src/cclGenerators/goGenerator/methods.go:319-322 | the exact read of `n` bytes succeeds exactly when `n` bytes remain, and what it reads is the first `n` bytes followed by the rest; otherwise it is a truncation error |
| Codec.PlanField | src/cclGenerators/goGenerator/methods.go:228-251 | the plan of a field, the strategy the serializer's switch (228-251) and the deserializer's switch (300-341) choose for it; its case analysis is stated by `Codec.PlanFieldCases` |
| Codec.Serialize | src/cclGenerators/goGenerator/methods.go:220-295 | `SerializeBinary`: nil is the byte 0, an object is its field values' encodings in field order; its inverse is `Codec.Deserialize` (`CodecLaws.RoundTrip`) |
| Codec.SerializeValue | src/cclGenerators/goGenerator/methods.go:228-291 | one field value: strings and bytes with a uint32 length prefix, a time as its int64 UnixNano, a scalar as its block, a nested model with a uint32 length prefix, arrays as a uint32 count then the elements; inverted by `Codec.DecodeField` (`CodecLaws.ValueRoundTrip`) |
| Codec.SerializeTargets | src/cclGenerators/goGenerator/methods.go:251-267 | nested array elements, each as a uint32 length then its bytes; inverted by `Codec.DecodeTargets` (`CodecLaws.TargetsRoundTrip`) |
| Codec.PlanFieldCases | src/cclGenerators/goGenerator/methods.go:228-291 | the serializer's and deserializer's switch: string, bytes and datetime are matched first, in that order and whether the field is an array or not; otherwise a field is nested exactly when its type names a model, and an array exactly when it is marked as one; the nested model is the one `GetModelByName` finds |
| Codec.ReadPrefixed | src/cclGenerators/goGenerator/methods.go:315-322 | a length-prefixed payload that is read is the bytes right after the four-byte prefix, and the rest follows it; every failure is a truncation error |
| CodecLaws.ReadPrefixedOutcome | src/cclGenerators/goGenerator/methods.go:315-322 | a length-prefixed read succeeds exactly when four prefix bytes and the announced number of payload bytes remain, and then the payload has the announced length |
| PayloadRead.ReadPrefixedAsWritten | src/cclGenerators/goGenerator/methods.go:315-322 | the prefixed read as the Go code performs it succeeds exactly when some input is left after the four prefix bytes; its payload has the announced length whatever remains, and what is left is a suffix of the input; every failure is a truncation error |
| Codec.Deserialize | src/cclGenerators/goGenerator/methods.go:297-410 | a decoded instance is an object with one value per field of the model |
| Codec.DecodeFields | src/cclGenerators/goGenerator/methods.go:300-407 | the fields are decoded in order into one value per field, and what is left is a suffix of the input |
| Codec.DecodeField | src/cclGenerators/goGenerator/methods.go:313-406 | decoding one field consumes a prefix of the input |
| Codec.DecodeBlocks | src/cclGenerators/goGenerator/methods.go:369-373 | a scalar array decodes into exactly the announced number of blocks, and what is left is a suffix of the input |
| Codec.DecodeTargets | src/cclGenerators/goGenerator/methods.go:347-368 | a nested array decodes into exactly the announced number of instances, and what is left is a suffix of the input |
| Codec.ZeroValue | src/cclGenerators/goGenerator/methods.go:206 | a field's Go zero value holds no nil nested model exactly when the field is not a single nested model |
| Codec.ZeroInstance | src/cclGenerators/goGenerator/methods.go:206 | `&Model{}` has one zero value per field, each the zero value of that field's plan; it conforms to the model whenever every scalar type has a width, and it is nil-free exactly when no field is a single nested model |
| Codec.CloneEmpty | src/cclGenerators/goGenerator/methods.go:201-214 | nil clones to nil and anything else clones to the zero instance, which conforms to the model whenever every scalar type has a width |
| CodecLaws.PrefixedRoundTrip | src/cclGenerators/goGenerator/methods.go:233-236 | a payload shorter than 2^32 bytes, written with its length prefix, reads back exactly, and trailing input is untouched |
| CodecLaws.BlocksRoundTrip | src/cclGenerators/goGenerator/methods.go:269-270 | scalar array elements of the type's width, written one after the other, read back in order |
| CodecLaws.RoundTrip | src/cclGenerators/goGenerator/methods.go:220-410 | every nil-free instance that conforms to its model deserializes from its own serialization, whatever bytes follow it |
| CodecLaws.FieldsRoundTrip | src/cclGenerators/goGenerator/methods.go:228-292 | the field values, each conforming to its field's plan and nil-free, decode from their serialization in order |
| CodecLaws.ValueRoundTrip | src/cclGenerators/goGenerator/methods.go:231-290 | each kind of value (string, bytes, time, scalar, nested, scalar array, nested array) decodes from its own encoding |
| CodecLaws.DecodeFieldsStep | src/cclGenerators/goGenerator/methods.go:300-407 | after the first field decodes, the rest of the fields decode from what is left |
| CodecLaws.PrefixedStep | src/cclGenerators/goGenerator/methods.go:313-333 | a string or bytes field is the payload the prefixed read returns |
| CodecLaws.NestedStep | src/cclGenerators/goGenerator/methods.go:375-401 | a nested field is the prefixed payload deserialized as the nested model, and its error otherwise |
| CodecLaws.ScalarArrayStep | src/cclGenerators/goGenerator/methods.go:342-373 | a scalar array is a count followed by that many blocks |
| CodecLaws.NestedArrayStep | src/cclGenerators/goGenerator/methods.go:342-368 | a nested array is a count followed by that many decoded instances |
| CodecLaws.TargetsStep | src/cclGenerators/goGenerator/methods.go:357-368 | one element of a nested array is a prefixed payload deserialized as the element model, and the remaining elements follow |
| CodecLaws.TargetsRoundTrip | src/cclGenerators/goGenerator/methods.go:255-267 | nested array elements that are nil-free, conform and are shorter than 2^32 bytes decode back in order |
| CodecLaws.ReadNExtends | src/cclGenerators/goGenerator/methods.go:319-320 | appending input does not change what a successful exact read returns |
| CodecLaws.ReadPrefixedExtends | src/cclGenerators/goGenerator/methods.go:315-322 | appending input does not change what a successful prefixed read returns |
| CodecLaws.FieldExtends | src/cclGenerators/goGenerator/methods.go:313-406 | appending input does not change a successfully decoded field |
| CodecLaws.BlocksExtends | src/cclGenerators/goGenerator/methods.go:369-373 | appending input does not change successfully decoded scalar blocks |
| CodecLaws.TargetsExtends | src/cclGenerators/goGenerator/methods.go:357-368 | appending input does not change successfully decoded nested elements |
| CodecLaws.FieldsExtends | src/cclGenerators/goGenerator/methods.go:300-407 | appending input does not change successfully decoded fields: the decoder never looks past what it needs |
| CodecLaws.BlocksPrefix | src/cclGenerators/goGenerator/methods.go:369-373 | scalar blocks read from a prefix of input they decode from give the same blocks or a truncation error |
| CodecLaws.TargetsPrefix | src/cclGenerators/goGenerator/methods.go:357-368 | nested elements read from a prefix of input they decode from give a result or a truncation error, never another error |
| CodecLaws.FieldPrefix | src/cclGenerators/goGenerator/methods.go:313-406 | one field read from a prefix of input it decodes from gives a result or a truncation error, never a type error |
| CodecLaws.FieldsPrefix | src/cclGenerators/goGenerator/methods.go:300-407 | the fields read from a prefix of input they decode from give a result or a truncation error |
| CodecLaws.PrefixOnlyTruncates | src/cclGenerators/goGenerator/methods.go:297-410 | cutting off the end of input that deserializes can only turn success into a truncation error |
| CodecLaws.TruncationDetected | src/cclGenerators/goGenerator/methods.go:297-410 | every proper prefix of a conforming, nil-free instance's serialization fails to decode, and the error is truncation |
| CodecLaws.DecodedNilFree | src/cclGenerators/goGenerator/methods.go:394-396 | a decoded instance never holds a nil nested model, because nested fields are allocated before they are filled |
| CodecLaws.FieldsNilFree | src/cclGenerators/goGenerator/methods.go:300-407 | every decoded field value is nil-free |
| CodecLaws.FieldNilFree | src/cclGenerators/goGenerator/methods.go:349-351 | a decoded field value is nil-free, array elements being allocated with `new` |
| CodecLaws.TargetsNilFree | src/cclGenerators/goGenerator/methods.go:349-368 | every decoded nested array element is non-nil |
| CodecLaws.RoundTripIff | src/cclGenerators/goGenerator/methods.go:222-225 | a conforming instance round-trips exactly when it holds no nil nested model, because a nil one serializes as `[0]` and never decodes back to nil |
| CodecLaws.NilSentinel | src/cclGenerators/goGenerator/methods.go:222-225 | nil serializes as the single byte 0, and no input deserializes to nil |
| CodecLaws.SentinelReadAsFields | src/cclGenerators/goGenerator/methods.go:297-300 | the sentinel `[0]` is read as ordinary field bytes: a model without fields decodes it to an empty object, and one whose first field needs two or more bytes reports truncation |
| CodecLaws.ShortInputTruncated | src/cclGenerators/goGenerator/methods.go:313-406 | a field that needs two or more bytes fails with a truncation error on shorter input |
| CodecLaws.CloneRoundTripIff | src/cclGenerators/goGenerator/methods.go:201-214 | with times identified by their int64 UnixNano count, a clone round-trips exactly when the model has no single nested field |
| CodecExample.U32OfByte | src/cclGenerators/goGenerator/methods.go:233 | a small length is one byte followed by three zero bytes |
| CodecExample.PointBytes | src/cclGenerators/goGenerator/methods.go:286-289 | a two-scalar point serializes as its two four-byte little-endian blocks |
| CodecExample.PointConforms | src/cclGenerators/goGenerator/methods.go:286-289 | the example point conforms to its model and is nil-free |
| CodecExample.RefBytes | src/cclGenerators/goGenerator/methods.go:274-285 | a nested point is its length, 8, then its bytes |
| CodecExample.RefsBytes | src/cclGenerators/goGenerator/methods.go:251-267 | a one-element nested array is the count, then the element's length and bytes |
| CodecExample.StrBytes | src/cclGenerators/goGenerator/methods.go:232-238 | the string "ab" is its length, 2, then its bytes |
| CodecExample.LineSerializes | src/cclGenerators/goGenerator/methods.go:220-295 | the example line serializes to the bytes written out by hand |
| CodecExample.LineFieldA | src/cclGenerators/goGenerator/methods.go:274-285 | the line's nested point field conforms and is nil-free |
| CodecExample.LineFieldPoints | src/cclGenerators/goGenerator/methods.go:251-267 | the line's point array field conforms and is nil-free |
| CodecExample.LineFieldLabel | src/cclGenerators/goGenerator/methods.go:232-238 | the line's label field conforms to its plan |
| CodecExample.LineConforms | src/cclGenerators/goGenerator/methods.go:220-295 | the example line conforms to its model and is nil-free |
| CodecExample.LineDecodes | src/cclGenerators/goGenerator/methods.go:297-410 | the hand-written bytes deserialize to the example line |
| CodecExample.SentinelAmbiguous | src/cclGenerators/goGenerator/methods.go:222-225 | an object whose only field is the one-byte scalar 0 serializes exactly as nil does |
| PayloadRead.ReaderRead | src/cclGenerators/goGenerator/methods.go:319-322 | `buf.Read` into a fresh slice of the announced length fails exactly when the input is exhausted; otherwise it fills the whole slice and consumes a prefix of the input |
| PayloadRead.ReadsAgree | src/cclGenerators/goGenerator/methods.go:319-322 | the Go read and the exact read agree exactly when the payload fits in the remaining input and that input is not empty, or when none is left and a nonempty payload was announced |
| PayloadRead.EmptyPayloadAtEnd | src/cclGenerators/goGenerator/methods.go:319-322 | an empty string at the end of the input is rejected by the Go read and accepted by the exact read |
| PayloadRead.ShortPayloadAccepted | src/cclGenerators/goGenerator/methods.go:388-391 | a payload cut short is accepted by the Go read, padded with zero bytes, and rejected by the exact read |
| PayloadRead.EmptyTextAsWritten | src/cclGenerators/goGenerator/methods.go:313-323 | a one-string-field message holding the empty string serializes as four zero bytes, and reading it back fails as written but succeeds with the exact read |
| GoText.Unlines | src/cclGenerators/goGenerator/methods.go:84-94 | writing each line followed by a newline gives at least one character per line |
| GoText.SplitUnlines | src/cclGenerators/goGenerator/methods.go:84-94 | lines without newlines, written one per line, read back as exactly those lines |
| GoText.Decimal | src/cclGenerators/goGenerator/methods.go:90 | `ToBase10` of a model id is a nonempty run of digits with no leading zero |
| GoText.DecimalRoundTrip | src/cclGenerators/goGenerator/methods.go:90 | the decimal rendering of a model id reads back as that id |
| GoTypes.HeaderText | src/cclGenerators/goGenerator/methods.go:84-85 | the header of every file is the banner line, a blank line, the package clause and a blank line |
| GoTypes.ResolveGoType | src/cclGenerators/goGenerator/methods.go:140-159 | a field type fails exactly when it is neither in the primitive table nor a model, and the error names the type, field, model and language; a table hit gives the table's Go type, otherwise `*Model`; arrays are prefixed with `[]` |
| GoTypes.HasDateTimeField | src/cclGenerators/goGenerator/methods.go:111-121 | some field of some model has the DateTime type; the import lemma `GoTypes.TimeImportIff` rests on it |
| GoTypes.ImportLines | src/cclGenerators/goGenerator/methods.go:111-129 | the import block is written exactly when a DateTime field exists (`GoTypes.TimeImportIff`) |
| GoTypes.FieldLines | src/cclGenerators/goGenerator/methods.go:139-161 | the field loop's lines and first error, specified in `GoTypes.FieldLinesOk`, `GoTypes.FieldLinesError` and `GoTypes.FieldLinesStop` |
| GoTypes.StructLines | src/cclGenerators/goGenerator/methods.go:137-163 | the model loop's text and first error, specified in `GoTypes.StructLinesOk`, `GoTypes.StructLinesError` and `GoTypes.StructLinesStop` |
| GoTypes.TypesPass | src/cclGenerators/goGenerator/methods.go:106-166 | the types pass's text and error, specified in `GoTypes.TypesPassText` and `GoTypes.TypesPassError` |
| GoTypes.TypesPassText | src/cclGenerators/goGenerator/methods.go:106-166 | the types file is the header, the imports, the `Serializable` interface and the struct lines, in that order |
| GoTypes.FieldLinesError | src/cclGenerators/goGenerator/methods.go:139-161 | a model's fields fail exactly when some field type is unsupported, and the error reported is that of the first such field |
| GoTypes.StructLinesError | src/cclGenerators/goGenerator/methods.go:137-163 | the struct loop fails exactly when not every field of every model resolves, and reports the first unsupported field in model order, then field order |
| GoTypes.TypesPassError | src/cclGenerators/goGenerator/methods.go:137-165 | the types pass returns an error exactly when some field is unsupported, and the error names the first such field's type, field, model and language |
| GoTypes.FieldLinesOk | src/cclGenerators/goGenerator/methods.go:139-161 | when every field resolves, each field gets one `\tName Type` line, in order |
| GoTypes.StructLinesOk | src/cclGenerators/goGenerator/methods.go:137-163 | when every field resolves, the struct text is each model's declaration in order: `type Name struct {`, its field lines, `}` and a blank line |
| GoTypes.FieldLineShape | src/cclGenerators/goGenerator/methods.go:160 | a field line is a one-line declaration, not an import line |
| GoTypes.FieldLinesShape | src/cclGenerators/goGenerator/methods.go:139-161 | with one-line names, every field line is a one-line declaration |
| GoTypes.StructLinesShape | src/cclGenerators/goGenerator/methods.go:137-163 | with one-line names, every struct line is a one-line declaration |
| GoTypes.HeaderShape | src/cclGenerators/goGenerator/methods.go:108-109 | with a one-line package name, the header lines are one-line declarations |
| GoTypes.InterfaceShape | src/cclGenerators/goGenerator/methods.go:131-135 | the interface lines are one-line declarations |
| GoTypes.TimeImportIff | src/cclGenerators/goGenerator/methods.go:111-129 | with one-line names, the types file holds the `"time"` import line exactly when some field of some model is a DateTime |
| GoTypes.FieldLinesStop | src/cclGenerators/goGenerator/methods.go:142-150 | once a field fails, the fields after it change neither the lines nor the error |
| GoTypes.FieldLinesNext | src/cclGenerators/goGenerator/methods.go:139-161 | each further field either adds its line or stops with its error |
| GoTypes.StructLinesNext | src/cclGenerators/goGenerator/methods.go:137-163 | each further model adds its opening line and field lines, then `}` and a blank line unless one of its fields fails |
| GoTypes.StructLinesStop | src/cclGenerators/goGenerator/methods.go:142-150 | once a model fails, the models after it change neither the text nor the error |
| GoTypes.TypeAndPlanAgree | src/cclGenerators/goGenerator/methods.go:140-159 | where the primitive table and the model list do not both claim a type, the types pass and the methods pass agree: nested fields are `*Model` (or `[]*Model`); scalars are the table's type and fail exactly when the table lacks them |
| GoTypes.ShadowedPrimitive | src/cclGenerators/goGenerator/methods.go:140-141 | a type that is both in the primitive table and a model name is declared with the table's Go type, while the methods pass treats it as nested |
| GoTypes.KeywordArray | src/cclGenerators/goGenerator/methods.go:157-159 | an array of strings, bytes or times is declared as a Go slice, while the methods pass handles it as a single string, bytes or time value |
| GoEmitter.ConstantLine | src/cclGenerators/goGenerator/methods.go:89-90 | one `ModelId<Name> = <id>` line, which reads back as its model's name and id (`GoEmitter.ConstantLineParses`) |
| GoEmitter.ConstantsLines | src/cclGenerators/goGenerator/methods.go:82-96 | the constants file's lines, read back as the models by `GoEmitter.ConstantsFile` |
| GoEmitter.AllMethods | src/cclGenerators/goGenerator/methods.go:176-415 | the methods file: for every model in definition order, its methods with the fields' plans in field order (`GoGeneration.PlanSteps`) |
| GoEmitter.Generate | src/cclGenerators/goGenerator/methods.go:13-80 | the whole generation, whose outcome `GoEmitter.GenerateOutcome` states |
| GoEmitter.ConstantLineParses | src/cclGenerators/goGenerator/methods.go:89-90 | every `ModelId` line reads back as its model's name and id |
| GoEmitter.OtherLinesDoNotParse | src/cclGenerators/goGenerator/methods.go:84-86 | no header line and neither block delimiter reads as a constant |
| GoEmitter.ConstantsOneLine | src/cclGenerators/goGenerator/methods.go:84-94 | with one-line names, every line of the constants file is one line |
| GoEmitter.ConstantsLinesParse | src/cclGenerators/goGenerator/methods.go:84-94 | the constants file's lines are the header, `const (`, one constant per model in order, and `)`; exactly the model lines declare constants |
| GoEmitter.ConstantsFile | src/cclGenerators/goGenerator/methods.go:82-96 | read back line by line, the constants file declares exactly the models' names and ids, in definition order, between `const (` and `)` |
| GoEmitter.GenerateOutcome | src/cclGenerators/goGenerator/methods.go:13-80 | generation fails exactly when the package name is empty or some field is unsupported, and then reports the first such field; otherwise it writes the constants, vars, types, helpers and methods files, in that order, under the output directory, the constants file holds the constants text, the types file declares every model, and the methods file holds every model's methods |
| GoGeneration.NeededImports | src/cclGenerators/goGenerator/methods.go:111-121 | the import set is `{"time"}` exactly when some field is a DateTime, and empty otherwise |
| GoGeneration.ImportBlock | src/cclGenerators/goGenerator/methods.go:123-129 | an empty set writes nothing; otherwise the block is `import (`, the `"time"` line, `)` and a blank line |
| GoGeneration.FieldGoType | src/cclGenerators/goGenerator/methods.go:140-159 | the Go type written for a field is the one `ResolveGoType` specifies, error included |
| GoGeneration.WriteFields | src/cclGenerators/goGenerator/methods.go:139-161 | the field loop writes the specified field lines and stops at the first unsupported field with its error |
| GoGeneration.WriteStructs | src/cclGenerators/goGenerator/methods.go:137-163 | the model loop writes the specified struct text and stops at the first unsupported field with its error |
| GoGeneration.PlanSteps | src/cclGenerators/goGenerator/methods.go:228-231 | the per-field steps of a serializer or deserializer body are the fields' plans, in field order |
| GoGeneration.GoGenerationContext.GenerateConstants | src/cclGenerators/goGenerator/methods.go:82-96 | the constants buffer becomes the specified constants text; no other buffer changes |
| GoGeneration.GoGenerationContext.GenerateVars | src/cclGenerators/goGenerator/methods.go:98-104 | the vars buffer becomes the header; no other buffer changes |
| GoGeneration.GoGenerationContext.GenerateTypes | src/cclGenerators/goGenerator/methods.go:106-166 | the types buffer and the returned error are those of the specified types pass, so a failure leaves the text written so far; no other buffer changes |
| GoGeneration.GoGenerationContext.GenerateHelpers | src/cclGenerators/goGenerator/methods.go:168-174 | the helpers buffer becomes the header; no other buffer changes |
| GoGeneration.GoGenerationContext.GenerateMethods | src/cclGenerators/goGenerator/methods.go:176-415 | the methods buffer holds every model's methods in definition order, each body's steps in field order; no other buffer changes |
| GoGeneration.GoGenerationContext.GenerateCode | src/cclGenerators/goGenerator/methods.go:13-80 | the result is the specified outcome; an empty package name touches no buffer; once the name is given, the constants, vars and types buffers hold the constants text, the header and the types pass's text (partial on an unsupported field); an unsupported field leaves the helpers and methods buffers as they were; success also puts the header in the helpers buffer and every model's methods in the methods buffer |

## Left out

- main.go is not part of this model, nor the CCL parser or the `GenerationOptions` plumbing that build the definition.
- File I/O: the five `ssg.WriteFileStr` calls become the list of files handed to the writer. A successful result models every write succeeding, so an error partway through the writes is not modelled.
- The `println` progress output of the methods pass has no effect on the files and is left out.
- The methods file is modelled structurally. For each model, the `GetModelId`, `CloneEmpty` and `CloneEmptySerializable` methods are identified only by the model's name. The `SerializeBinary` and `DeserializeBinary` bodies are lists of per-field steps, one per field with its plan. The byte-exact Go text, the default imports and the `_ = time.April` constants block are not modelled. What those bodies do at run time is modelled separately, as `Codec`.
- Whether the emitted Go compiles is not modelled. Examples: two bytes fields in one model both declare `bytesData` with `:=`; `KeywordArray` declares a slice that the methods then treat as a single value; local names that clash after the first letter of a field name is lowered.
- An empty field name makes the methods pass panic at `field.Name[0]`. The model does not panic.
- The primitive table `CCLTypesToGoTypes`, `LanguageName`, the five file names and `os.PathSeparator` are defined outside methods.go. They are parameters (`Schema.Catalog`, `GoEmitter.Backend`). So are the keyword type names and the byte width of each scalar type, which `encoding/binary` fixes for each Go type.
- The types pass ranges over a Go map to write the imports. Only `"time"` can be in that map, so its iteration order cannot matter. `GoGeneration.ImportBlock` takes an arbitrary element of the remaining set each time.
- `time.Time` is modelled by its UnixNano count, and the zero time by Go's zero `time.Time`'s UnixNano reduced to int64. Time zones, monotonic readings and the wrap of `UnixNano` outside about 1678–2262 are not modelled beyond that reduction.
- Scalars are modelled as byte blocks of the type's width. Their Go values, and how `binary.Write` lays out a particular Go type, are not modelled.
- Model ids are natural numbers rendered with `Decimal`, which stands in for `ssg.ToBase10`.
- The uint32 wrap of `uint32(len(...))` is modelled (`Wire.U32Wraps`). The round-trip lemmas require every length to be below 2^32, which is where the wrap cannot happen.
- The emitted deserializer never checks that the reader is drained, so trailing bytes are ignored. Every round-trip lemma therefore holds with arbitrary trailing input.
- The emitted deserializer fills an existing receiver field by field. The model returns a fresh instance, and a nested field is allocated when nil. On success every field is overwritten, so the two agree. On failure the Go receiver keeps the fields decoded before the error, a scalar array already re-made is left half filled, and an existing nested object is refilled in place through its pointer, which other references may share (methods.go:315-323, 370-372, 394-399). None of this partial update or aliasing is modelled: the model's `Err` carries no instance.
- A nil receiver is written as `[0]`, but the emitted `DeserializeBinary` has no case for it and reads the byte as field data, so the model follows the code (`CodecLaws.NilSentinel`, `CodecLaws.SentinelReadAsFields`).
- The types pass looks a field type up in the primitive table before the model list, while the methods pass tests for a model first. The model keeps both orders (`GoTypes.ShadowedPrimitive`).
- Each pass builds its text with a `strings.Builder`. The model builds a local string and assigns it to the buffer; the resulting buffer contents are the same.
- CodecLaws.CloneRoundTripIff: holds for times identified by their int64 UnixNano count, as the model identifies them. In Go, `time.Time{}` has UnixNano -6795364578871345152 after the int64 wrap, and `time.Unix(0, n)` (methods.go:339) reads that back as a time in 1754, not the zero `time.Time`, so in the program a clone with a DateTime field does not round-trip to an equal value.
- Codec.Serialize: has no error path. The emitted `binary.Write` of a scalar whose Go type has no fixed size returns an error (methods.go:269-271, 287-289), and a nested serializer's error is passed up (methods.go:258-261, 276-279). The model writes the value's block instead. The round-trip lemmas require `Conforms`, which demands a width for every scalar type, and the decoder rejects a type without one with `InvalidType`, so the missing error path lies outside every proved property. `Codec.SerializeValue` and `Codec.SerializeTargets` are the same.
- Wire.ReadN: models the exact read of `n` bytes that the emitted code evidently intends, not the single `bytes.Reader.Read` it performs; `PayloadRead` models the latter (see Findings).
- Codec.ReadPrefixed: uses the exact read for the same reason, so `Codec.Deserialize` is the corrected decoder, not the one as written.

## Findings

| source | as written | input that shows it | evidently intended | confidence | as-written member | corrected member |
|---|---|---|---|---|---|---|
| src/cclGenerators/goGenerator/methods.go:319-322 (also 329-332, 361-364, 388-391) | each length-prefixed payload is read with one `buf.Read` on a `bytes.Reader`. At end of input that call returns `io.EOF` even for an empty slice; otherwise it returns a short read without error | a model with one string field whose value is empty serializes to `[0, 0, 0, 0]`, and decoding that fails with `io.EOF`; a payload whose announced length exceeds the remaining bytes is accepted and zero-padded | read exactly the announced number of bytes (`io.ReadFull`), failing only when fewer remain | not executed | PayloadRead.ReaderRead (with PayloadRead.EmptyTextAsWritten, PayloadRead.ShortPayloadAccepted, PayloadRead.ReadsAgree) | Codec.ReadPrefixed (with CodecLaws.PrefixedRoundTrip, CodecLaws.RoundTrip, CodecLaws.TruncationDetected, CodecLaws.PrefixOnlyTruncates) |
