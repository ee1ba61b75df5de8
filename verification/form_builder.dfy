/** The form-builder page: the configuration being edited (a collection name
    and a list of field specs), the edits made to it, and the save that checks
    it and sends it to the server as a create or an update. */
module FormBuilderEditor {
  import opened Common
  import opened Json
  import opened Strings
  import opened FormSchema
  import SchemaStore

  /** An entry of the type selector: the caption shown and the type stored. */
  datatype FieldType = FieldType(caption: string, value: string)

  const FieldTypes: seq<FieldType> := [
    FieldType("Text", "text"),
    FieldType("Number", "number"),
    FieldType("Email", "email"),
    FieldType("Select", "select"),
    FieldType("Date", "date"),
    FieldType("Textarea", "textarea")
  ]

  /** The type names the selector offers. */
  function FieldTypeValues(): (vs: seq<string>)
    ensures |vs| == |FieldTypes|
    ensures forall i :: 0 <= i < |vs| ==> vs[i] == FieldTypes[i].value
  {
    seq(|FieldTypes|, i requires 0 <= i < |FieldTypes| => FieldTypes[i].value)
  }

  /** The selector offers exactly six distinct types. */
  lemma FieldTypesClosed()
    ensures FieldTypeValues() == ["text", "number", "email", "select", "date", "textarea"]
    ensures forall i, j :: 0 <= i < j < |FieldTypeValues()| ==> FieldTypeValues()[i] != FieldTypeValues()[j]
  {
  }

  /** The entry `addField` appends. */
  function BlankField(): FieldSpec {
    FieldSpec("", "text", "", false, [])
  }

  /** The keys of a field spec that the page edits. */
  datatype Key = FieldKey | TypeKey | LabelKey | RequiredKey | OptionsKey

  /** `spec[key]` as a JSON value. */
  function Read(f: FieldSpec, k: Key): Value {
    match k
    case FieldKey => Str(f.field)
    case TypeKey => Str(f.fieldType)
    case LabelKey => Str(f.fieldLabel)
    case RequiredKey => Bool(f.required)
    case OptionsKey => StrArray(f.options)
  }

  /** A list of strings as a JSON array. */
  function StrArray(ss: seq<string>): (v: Value)
    ensures v.Arr? && |v.items| == |ss|
    ensures forall i :: 0 <= i < |ss| ==> v.items[i] == Str(ss[i])
  {
    Arr(seq(|ss|, i requires 0 <= i < |ss| => Str(ss[i])))
  }

  /** Two specs that read the same at every key are the same spec. */
  lemma ReadDetermines(f: FieldSpec, g: FieldSpec)
    requires forall k :: Read(f, k) == Read(g, k)
    ensures f == g
  {
    assert Read(f, FieldKey) == Read(g, FieldKey);
    assert Read(f, TypeKey) == Read(g, TypeKey);
    assert Read(f, LabelKey) == Read(g, LabelKey);
    assert Read(f, RequiredKey) == Read(g, RequiredKey);
    assert Read(f, OptionsKey) == Read(g, OptionsKey);
    assert |f.options| == |g.options|;
    forall i | 0 <= i < |f.options|
      ensures f.options[i] == g.options[i]
    {
      assert Read(f, OptionsKey).items[i] == Str(f.options[i]);
      assert Read(g, OptionsKey).items[i] == Str(g.options[i]);
    }
  }

  /** A value set by `handleFieldChange`, typed by the key it goes to. */
  datatype FieldEdit =
    | SetField(text: string)
    | SetType(text: string)
    | SetLabel(text: string)
    | SetRequired(flag: bool)
    | SetOptions(choices: seq<string>)

  function KeyOf(e: FieldEdit): Key {
    match e
    case SetField(_) => FieldKey
    case SetType(_) => TypeKey
    case SetLabel(_) => LabelKey
    case SetRequired(_) => RequiredKey
    case SetOptions(_) => OptionsKey
  }

  function ValueOf(e: FieldEdit): Value {
    match e
    case SetField(t) => Str(t)
    case SetType(t) => Str(t)
    case SetLabel(t) => Str(t)
    case SetRequired(b) => Bool(b)
    case SetOptions(cs) => StrArray(cs)
  }

  /** `spec[key] = value`: the edited key reads as the new value, every other key as before. */
  function ApplyEdit(f: FieldSpec, e: FieldEdit): (g: FieldSpec)
    ensures Read(g, KeyOf(e)) == ValueOf(e)
    ensures forall k :: k != KeyOf(e) ==> Read(g, k) == Read(f, k)
  {
    match e
    case SetField(t) => f.(field := t)
    case SetType(t) => f.(fieldType := t)
    case SetLabel(t) => f.(fieldLabel := t)
    case SetRequired(b) => f.(required := b)
    case SetOptions(cs) => f.(options := cs)
  }

  /** The options typed into a select field: the text split at each comma. Joining
      them back gives the text, and no option contains a comma. */
  function OptionsFromText(text: string): (opts: seq<string>)
    ensures |opts| >= 1
    ensures Join(opts, ",") == text
    ensures forall i :: 0 <= i < |opts| ==> !Contains(opts[i], ",")
  {
    JoinSplit(text, ",");
    SplitPiecesFree(text, ",");
    Split(text, ",")
  }

  /** What the page asks the server to do. */
  datatype ConfigRequest =
    | PostConfig(body: ConfigBody)
    | PutConfig(id: ObjectId, body: ConfigBody)
    | DeleteConfig(id: ObjectId)

  const NameRequired: string := "Collection name is required"
  const FieldRequired: string := "At least one field is required"

  /** The outcome of pressing Save: refused on the page with a message, or a
      request sent (and, when the server accepted it, the list refetched). */
  datatype SaveResult = Refused(message: string) | Issued(request: ConfigRequest, refetch: bool)

  /** The body the page sends: the collection name and every field with all its keys. */
  function BodyOf(name: string, schema: seq<FieldSpec>): (b: ConfigBody)
    ensures b.collectionName == Some(name) && b.schema.Some?
    ensures CastSchemaLoose(b.schema.value) == schema
  {
    CastSchemaRoundTrip(schema);
    ConfigBody(Some(name), Some(ToRawSchema(schema)))
  }

  /** The checks of `saveFormConfig`, in order, and the create/update choice. */
  function SaveDecision(id: Option<ObjectId>, name: string, schema: seq<FieldSpec>, accepted: bool): (r: SaveResult)
    ensures name == "" ==> r == Refused(NameRequired)
    ensures name != "" && schema == [] ==> r == Refused(FieldRequired)
    ensures name != "" && schema != [] ==> r.Issued? && r.refetch == accepted
    ensures r.Issued? && id.Some? ==> r.request == PutConfig(id.value, BodyOf(name, schema))
    ensures r.Issued? && id.None? ==> r.request == PostConfig(BodyOf(name, schema))
  {
    if name == "" then Refused(NameRequired)
    else if |schema| == 0 then Refused(FieldRequired)
    else if id.Some? then Issued(PutConfig(id.value, BodyOf(name, schema)), accepted)
    else Issued(PostConfig(BodyOf(name, schema)), accepted)
  }

  /** Every create or update the page sends passes the server's body check. */
  lemma IssuedPassesBodyCheck(id: Option<ObjectId>, name: string, schema: seq<FieldSpec>, accepted: bool)
    requires SaveDecision(id, name, schema, accepted).Issued?
    ensures SchemaStore.BodyOk(Some(SaveDecision(id, name, schema, accepted).request.body))
  {
  }

  /** When every field is filled in, the server stores exactly the page's fields
      under the page's name; a field left blank makes the server refuse the create. */
  lemma {:induction false} CreateStoresEditorFields(name: string, schema: seq<FieldSpec>, freshId: ObjectId, now: int)
    requires name != ""
    ensures (forall i :: 0 <= i < |schema| ==> FieldComplete(schema[i])) ==>
      NewConfig(BodyOf(name, schema), freshId, now) == Some(FormConfig(freshId, name, schema, now, now))
    ensures (exists i :: 0 <= i < |schema| && !FieldComplete(schema[i])) ==>
      NewConfig(BodyOf(name, schema), freshId, now).None?
  {
    CastSchemaRoundTrip(schema);
    var raws := ToRawSchema(schema);
    if exists i :: 0 <= i < |schema| && !FieldComplete(schema[i]) {
      var i :| 0 <= i < |schema| && !FieldComplete(schema[i]);
      CastToRaw(schema[i]);
      assert !RawFieldValid(raws[i]);
    }
  }

  /** A field added with Add Field and saved before being filled in is refused by the server. */
  lemma BlankFieldRefused(name: string, schema: seq<FieldSpec>, freshId: ObjectId, now: int)
    requires name != ""
    ensures NewConfig(BodyOf(name, schema + [BlankField()]), freshId, now).None?
  {
    var s := schema + [BlankField()];
    assert !FieldComplete(s[|schema|]);
    CreateStoresEditorFields(name, s, freshId, now);
  }

  class Editor {
    /** `formConfig._id`: present once a saved configuration is loaded for editing. */
    var id: Option<ObjectId>
    var collectionName: string
    var schema: seq<FieldSpec>
    /** The saved configurations last fetched from the server. */
    var savedForms: seq<FormConfig>

    constructor ()
      ensures id.None? && collectionName == "" && schema == [] && savedForms == []
    {
      id, collectionName, schema, savedForms := None, "", [], [];
    }

    /** Typing in the collection-name input. */
    method SetCollectionName(name: string)
      modifies this
      ensures collectionName == name
      ensures id == old(id) && schema == old(schema) && savedForms == old(savedForms)
    {
      collectionName := name;
    }

    /** `addField`: append one blank text field; nothing else changes. */
    method AddField()
      modifies this
      ensures schema == old(schema) + [BlankField()]
      ensures id == old(id) && collectionName == old(collectionName) && savedForms == old(savedForms)
    {
      schema := schema + [BlankField()];
    }

    /** `handleFieldChange(index, key, value)`: only entry `index` changes, and in
        it only the edited key.  An index past the end makes the handler throw
        before the state is set, so nothing changes. */
    method HandleFieldChange(index: int, edit: FieldEdit)
      modifies this
      ensures |schema| == |old(schema)|
      ensures 0 <= index < |old(schema)| ==>
        Read(schema[index], KeyOf(edit)) == ValueOf(edit)
        && (forall k :: k != KeyOf(edit) ==> Read(schema[index], k) == Read(old(schema)[index], k))
      ensures forall j :: 0 <= j < |schema| && j != index ==> schema[j] == old(schema)[j]
      ensures !(0 <= index < |old(schema)|) ==> schema == old(schema)
      ensures id == old(id) && collectionName == old(collectionName) && savedForms == old(savedForms)
    {
      if 0 <= index < |schema| {
        schema := schema[index := ApplyEdit(schema[index], edit)];
      }
    }

    /** `handleEdit(record)`: load a saved configuration, with its id. */
    method HandleEdit(record: FormConfig)
      modifies this
      ensures id == Some(record.id) && collectionName == record.collectionName && schema == record.schema
      ensures savedForms == old(savedForms)
    {
      id, collectionName, schema := Some(record.id), record.collectionName, record.schema;
    }

    /** `saveFormConfig`; `accepted` is whether the server answered with success,
        and `refetched` is what the list fetch started after a success returns.
        After a success the list is refetched and the editor is emptied; after a
        refusal or a failure the editor keeps what was typed and the list is kept. */
    method Save(accepted: bool, refetched: Option<seq<FormConfig>>) returns (result: SaveResult)
      modifies this
      ensures result == SaveDecision(old(id), old(collectionName), old(schema), accepted)
      ensures result.Issued? && accepted ==> id.None? && collectionName == "" && schema == []
      ensures !(result.Issued? && accepted) ==>
        id == old(id) && collectionName == old(collectionName) && schema == old(schema)
      ensures result.Issued? && accepted && refetched.Some? ==> savedForms == refetched.value
      ensures !(result.Issued? && accepted && refetched.Some?) ==> savedForms == old(savedForms)
    {
      if collectionName == "" {
        return Refused(NameRequired);
      }
      if |schema| == 0 {
        return Refused(FieldRequired);
      }
      var body := BodyOf(collectionName, schema);
      if id.Some? {
        result := Issued(PutConfig(id.value, body), accepted);
      } else {
        result := Issued(PostConfig(body), accepted);
      }
      if accepted {
        FetchSavedForms(refetched);
        id, collectionName, schema := None, "", [];
      }
    }

    /** `fetchSavedForms`: the list is replaced on success and kept on failure. */
    method FetchSavedForms(response: Option<seq<FormConfig>>)
      modifies this
      ensures response.Some? ==> savedForms == response.value
      ensures response.None? ==> savedForms == old(savedForms)
      ensures id == old(id) && collectionName == old(collectionName) && schema == old(schema)
    {
      if response.Some? {
        savedForms := response.value;
      }
    }

    /** `handleDelete(id)`: send the delete; when it succeeds, refetch the list
        (`refetched` is what that fetch returns). */
    method HandleDelete(target: ObjectId, deleted: bool, refetched: Option<seq<FormConfig>>)
      returns (request: ConfigRequest)
      modifies this
      ensures request == DeleteConfig(target)
      ensures deleted && refetched.Some? ==> savedForms == refetched.value
      ensures !(deleted && refetched.Some?) ==> savedForms == old(savedForms)
      ensures id == old(id) && collectionName == old(collectionName) && schema == old(schema)
    {
      request := DeleteConfig(target);
      if deleted {
        FetchSavedForms(refetched);
      }
    }
  }
}
