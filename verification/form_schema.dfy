/** The stored form configuration: a unique collection name and an ordered
    list of field specs, with the defaults and required keys that the document
    model declares, and the cast from a request body to a stored config. */
module FormSchema {
  import opened Common
  import opened Json

  /** One field of a form: its key in a record, its type name, its label,
      whether it must be filled in, and the choices of a select field. */
  datatype FieldSpec = FieldSpec(field: string, fieldType: string, fieldLabel: string, required: bool, options: seq<string>)

  /** A stored configuration, with its id and its creation and update times. */
  datatype FormConfig = FormConfig(
    id: ObjectId,
    collectionName: string,
    schema: seq<FieldSpec>,
    createdAt: int,
    updatedAt: int)

  /** A field spec as it arrives in a request body: every key may be absent. */
  datatype RawField = RawField(
    field: Option<string>,
    fieldType: Option<string>,
    fieldLabel: Option<string>,
    required: Option<bool>,
    options: Option<seq<string>>)

  /** The body of a create or update request: `{collectionName, schema}`, either key may be absent. */
  datatype ConfigBody = ConfigBody(collectionName: Option<string>, schema: Option<seq<RawField>>)

  /** A fixed text the message of a failed document validation contains. */
  const ValidationFailed: string := "FormBuilder validation failed"

  /** A `required: true` string path: present and not empty. */
  predicate PresentString(v: Option<string>) {
    v.Some? && v.value != ""
  }

  /** `field`, `type` and `label` are required strings. */
  predicate RawFieldValid(f: RawField) {
    PresentString(f.field) && PresentString(f.fieldType) && PresentString(f.fieldLabel)
  }

  /** A stored field spec whose required strings are all filled in. */
  predicate FieldComplete(s: FieldSpec) {
    s.field != "" && s.fieldType != "" && s.fieldLabel != ""
  }

  /** A stored config that satisfies the document model: a non-empty name and complete fields. */
  predicate ConfigComplete(c: FormConfig) {
    c.collectionName != "" && forall i :: 0 <= i < |c.schema| ==> FieldComplete(c.schema[i])
  }

  /** Casting a raw field applies the defaults: `required` is false and `options`
      is empty when omitted.  An absent string reads as "" here; validation
      (`CastSchema`) is what rejects it. */
  function CastField(f: RawField): (s: FieldSpec)
    ensures f.required.None? ==> !s.required
    ensures f.options.None? ==> s.options == []
    ensures f.required.Some? ==> s.required == f.required.value
    ensures f.options.Some? ==> s.options == f.options.value
    ensures RawFieldValid(f) ==> FieldComplete(s) && Some(s.field) == f.field && Some(s.fieldType) == f.fieldType && Some(s.fieldLabel) == f.fieldLabel
  {
    FieldSpec(f.field.GetOr(""), f.fieldType.GetOr(""), f.fieldLabel.GetOr(""), f.required.GetOr(false), f.options.GetOr([]))
  }

  /** The raw form of a stored field spec, every key present (what the builder sends). */
  function ToRaw(s: FieldSpec): RawField {
    RawField(Some(s.field), Some(s.fieldType), Some(s.fieldLabel), Some(s.required), Some(s.options))
  }

  function ToRawSchema(schema: seq<FieldSpec>): (raws: seq<RawField>)
    ensures |raws| == |schema|
    ensures forall i :: 0 <= i < |schema| ==> raws[i] == ToRaw(schema[i])
  {
    if schema == [] then [] else [ToRaw(schema[0])] + ToRawSchema(schema[1..])
  }

  /** Sending a field spec and casting it back gives the same spec, and it passes
      validation exactly when its required strings are filled in. */
  lemma CastToRaw(s: FieldSpec)
    ensures CastField(ToRaw(s)) == s
    ensures RawFieldValid(ToRaw(s)) <==> FieldComplete(s)
  {
  }

  /** Casting plus validation of the field list: every field must be valid, and
      the result is the cast of each, in order. */
  function CastSchema(raws: seq<RawField>): (r: Option<seq<FieldSpec>>)
    ensures r.Some? <==> forall i :: 0 <= i < |raws| ==> RawFieldValid(raws[i])
    ensures r.Some? ==> |r.value| == |raws|
    ensures r.Some? ==> forall i :: 0 <= i < |raws| ==> r.value[i] == CastField(raws[i]) && FieldComplete(r.value[i])
  {
    if raws == [] then Some([])
    else if !RawFieldValid(raws[0]) then None
    else
      match CastSchema(raws[1..])
      case None => None
      case Some(rest) => Some([CastField(raws[0])] + rest)
  }

  /** Casting without validation, as an update does. */
  function CastSchemaLoose(raws: seq<RawField>): (r: seq<FieldSpec>)
    ensures |r| == |raws|
    ensures forall i :: 0 <= i < |raws| ==> r[i] == CastField(raws[i])
  {
    if raws == [] then [] else [CastField(raws[0])] + CastSchemaLoose(raws[1..])
  }

  /** The builder's field list survives the trip through a request body. */
  lemma {:induction false} CastSchemaRoundTrip(schema: seq<FieldSpec>)
    ensures CastSchemaLoose(ToRawSchema(schema)) == schema
    ensures (forall i :: 0 <= i < |schema| ==> FieldComplete(schema[i])) ==> CastSchema(ToRawSchema(schema)) == Some(schema)
  {
    var raws := ToRawSchema(schema);
    forall i | 0 <= i < |schema|
      ensures CastField(raws[i]) == schema[i]
      ensures RawFieldValid(raws[i]) <==> FieldComplete(schema[i])
    {
      CastToRaw(schema[i]);
    }
    assert CastSchemaLoose(raws) == schema;
    if forall i :: 0 <= i < |schema| ==> FieldComplete(schema[i]) {
      var r := CastSchema(raws);
      assert r.Some?;
      assert r.value == schema;
    }
  }

  /** `new FormBuilder(body)` followed by `save()`: the name is a required
      string and every field must validate; on success both timestamps are `now`. */
  function NewConfig(body: ConfigBody, id: ObjectId, now: int): (r: Option<FormConfig>)
    requires body.schema.Some?
    ensures r.Some? <==> PresentString(body.collectionName) && CastSchema(body.schema.value).Some?
    ensures r.Some? ==> ConfigComplete(r.value)
    ensures r.Some? ==> r.value.id == id && Some(r.value.collectionName) == body.collectionName
    ensures r.Some? ==> r.value.createdAt == now && r.value.updatedAt == now
    ensures r.Some? ==> |r.value.schema| == |body.schema.value|
  {
    if !PresentString(body.collectionName) then None
    else
      match CastSchema(body.schema.value)
      case None => None
      case Some(fields) => Some(FormConfig(id, body.collectionName.value, fields, now, now))
  }

  /** `findByIdAndUpdate(id, body, {new: true})`: the name and the field list are
      replaced, the id and creation time are kept, the update time becomes `now`. */
  function UpdatedConfig(old_: FormConfig, name: string, raws: seq<RawField>, now: int): (r: FormConfig)
    ensures r.id == old_.id && r.createdAt == old_.createdAt && r.updatedAt == now
    ensures r.collectionName == name && |r.schema| == |raws|
    ensures forall i :: 0 <= i < |raws| ==> r.schema[i] == CastField(raws[i])
  {
    FormConfig(old_.id, name, CastSchemaLoose(raws), old_.createdAt, now)
  }
}
