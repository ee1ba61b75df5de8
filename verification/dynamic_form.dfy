/** The data-entry page of one collection: it fetches the collection's field
    specs and renders one form item per field, converts date fields between the
    stored text and the date picker, and posts each submitted record. */
module DynamicFormView {
  import opened Common
  import opened Json
  import opened Strings
  import opened FormSchema
  import opened FormRules
  import opened RecordViews
  import FormBuilderEditor
  import SchemaStore

  /** The input a field is rendered with. */
  datatype Widget = NumberInput | DatePicker(format: string) | EmailInput | Choice(choices: seq<string>) | TextInput

  const DateFormat: string := "YYYY-MM-DD"

  /** `renderFormItem`: number, date, email and select types get their own input;
      every other type, `textarea` included, gets a plain text input. */
  function WidgetFor(f: FieldSpec): (w: Widget)
    ensures w.NumberInput? <==> f.fieldType == "number"
    ensures w.DatePicker? <==> f.fieldType == "date"
    ensures w.EmailInput? <==> f.fieldType == "email"
    ensures w.Choice? <==> f.fieldType == "select"
    ensures w.TextInput? <==> f.fieldType !in {"number", "date", "email", "select"}
    ensures w.DatePicker? ==> w.format == DateFormat
    ensures w.Choice? ==> w.choices == f.options
  {
    match f.fieldType
    case "number" => NumberInput
    case "date" => DatePicker(DateFormat)
    case "email" => EmailInput
    case "select" => Choice(f.options)
    case _ => TextInput
  }

  /** The choices of a select field are the options typed in the builder: joined
      with commas they give back the typed text, and none contains a comma. */
  lemma SelectChoicesFromBuilder(f: FieldSpec, typed: string)
    requires f.fieldType == "select" && f.options == FormBuilderEditor.OptionsFromText(typed)
    ensures Join(WidgetFor(f).choices, ",") == typed
    ensures forall i :: 0 <= i < |WidgetFor(f).choices| ==> !Contains(WidgetFor(f).choices[i], ",")
  {
  }

  /** One `Form.Item`: named by the field, labelled by its label, with one
      required rule, rendered with the field's widget. */
  datatype FormItem = FormItem(name: string, caption: string, rule: Rule, widget: Widget)

  function RequiredMessage(caption: string): string {
    caption + " is required"
  }

  /** The form items, one per field in schema order. */
  function FormItems(schema: seq<FieldSpec>): (items: seq<FormItem>)
    ensures |items| == |schema|
    ensures forall i :: 0 <= i < |schema| ==>
      items[i] == FormItem(schema[i].field, schema[i].fieldLabel,
                           Required(schema[i].required, RequiredMessage(schema[i].fieldLabel)),
                           WidgetFor(schema[i]))
  {
    seq(|schema|, i requires 0 <= i < |schema| =>
      FormItem(schema[i].field, schema[i].fieldLabel,
               Required(schema[i].required, RequiredMessage(schema[i].fieldLabel)), WidgetFor(schema[i])))
  }

  function ChecksOf(items: seq<FormItem>): (checks: seq<Check>)
    ensures |checks| == |items|
    ensures forall i :: 0 <= i < |items| ==> checks[i] == Check(items[i].name, [items[i].rule])
  {
    seq(|items|, i requires 0 <= i < |items| => Check(items[i].name, [items[i].rule]))
  }

  /** The names of the form's items. */
  function FieldNames(schema: seq<FieldSpec>): set<string> {
    set i | 0 <= i < |schema| :: schema[i].field
  }

  /** The form submits exactly when every required field has a value. */
  lemma FormSubmitsIff(schema: seq<FieldSpec>, values: Document, isEmail: string -> bool)
    ensures Errors(ChecksOf(FormItems(schema)), values, isEmail) == [] <==>
      forall i :: 0 <= i < |schema| && schema[i].required ==> !Empty(values, schema[i].field)
  {
    var checks := ChecksOf(FormItems(schema));
    ErrorsEmpty(checks, values, isEmail);
    forall i | 0 <= i < |schema|
      ensures RulesPass(checks[i].rules, values, checks[i].name, isEmail)
          <==> !(schema[i].required && Empty(values, schema[i].field))
    {
      var r := Required(schema[i].required, RequiredMessage(schema[i].fieldLabel));
      assert checks[i].rules == [r] && checks[i].name == schema[i].field;
      if RuleError(r, values, schema[i].field, isEmail).Some? {
        assert [r][0] == r;
        assert !RulesPass([r], values, schema[i].field, isEmail);
      }
    }
  }

  /** `field` is the name of a date-typed field of the schema. */
  predicate DateKey(schema: seq<FieldSpec>, k: string) {
    exists i :: 0 <= i < |schema| && schema[i].fieldType == "date" && schema[i].field == k
  }

  /** The record with every present date field passed through `conv`; the
      reference for the conversion loops of `handleEdit` and `onFinish`. */
  function ConvertDates(schema: seq<FieldSpec>, doc: Document, conv: Value -> Value): (r: Document)
    ensures r.Keys == doc.Keys
  {
    map k | k in doc :: if DateKey(schema, k) && Truthy(doc[k]) then conv(doc[k]) else doc[k]
  }

  /** Conversion keeps the record's keys and changes only values of date fields
      that are set; everything else passes through unchanged. */
  lemma ConvertDatesOnlyDates(schema: seq<FieldSpec>, doc: Document, conv: Value -> Value)
    ensures ConvertDates(schema, doc, conv).Keys == doc.Keys
    ensures forall k :: k in doc && !(DateKey(schema, k) && Truthy(doc[k])) ==> ConvertDates(schema, doc, conv)[k] == doc[k]
    ensures forall k :: k in doc && DateKey(schema, k) && Truthy(doc[k]) ==> ConvertDates(schema, doc, conv)[k] == conv(doc[k])
  {
  }

  /** The two date conversions cancel: converting a record's set dates for the
      picker and then back to ISO text gives back the record, provided the picker
      value of each stored date prints back to that date. */
  lemma EditSubmitRoundTrip(schema: seq<FieldSpec>, doc: Document, toPicker: Value -> Value, toIso: Value -> Value)
    requires forall v :: Truthy(v) ==> Truthy(toPicker(v)) && toIso(toPicker(v)) == v
    ensures ConvertDates(schema, ConvertDates(schema, doc, toPicker), toIso) == doc
  {
    var once := ConvertDates(schema, doc, toPicker);
    var twice := ConvertDates(schema, once, toIso);
    assert twice.Keys == doc.Keys;
    forall k | k in doc
      ensures twice[k] == doc[k]
    {
    }
  }

  /** Loading a record into the form (`HandleEdit`) and submitting it unchanged
      (`Submit`) posts every field of the record with its stored value, provided
      the date conversions cancel; the posted body holds field names only, so the
      record's `_id` and any key that is not a field are not sent, and the post
      creates a new record. */
  lemma EditThenSubmitKeepsFields(schema: seq<FieldSpec>, before: Document, record: Document,
                                  toPicker: Value -> Value, toIso: Value -> Value)
    requires forall v :: Truthy(v) ==> Truthy(toPicker(v)) && toIso(toPicker(v)) == v
    ensures var values := before + ConvertDates(schema, record, toPicker);
      var body := ConvertDates(schema, Submitted(values, FieldNames(schema)), toIso);
      && body.Keys <= FieldNames(schema)
      && forall k :: k in record && k in FieldNames(schema) ==> k in body && body[k] == record[k]
  {
    var loaded := ConvertDates(schema, record, toPicker);
    var values := before + loaded;
    var sent := Submitted(values, FieldNames(schema));
    var body := ConvertDates(schema, sent, toIso);
    forall k | k in record && k in FieldNames(schema)
      ensures k in body && body[k] == record[k]
    {
      assert k in loaded && values[k] == loaded[k];
      assert k in sent && sent[k] == loaded[k];
    }
  }

  /** The `forEach` of `handleEdit` and `onFinish`: copy the record, then for each
      field in schema order overwrite a set date value with its conversion. */
  method ConvertDateFields(schema: seq<FieldSpec>, record: Document, conv: Value -> Value) returns (formatted: Document)
    ensures formatted == ConvertDates(schema, record, conv)
  {
    formatted := record;
    var i := 0;
    while i < |schema|
      invariant 0 <= i <= |schema|
      invariant formatted == ConvertDates(schema[..i], record, conv)
    {
      var f := schema[i];
      if f.fieldType == "date" && TruthyAt(record, f.field) {
        formatted := formatted[f.field := conv(record[f.field])];
      }
      ConvertOneMore(schema, i, record, conv);
      i := i + 1;
    }
    assert schema[..i] == schema;
  }

  /** One step of the loop: adding field `i` to the fields considered. */
  lemma ConvertOneMore(schema: seq<FieldSpec>, i: nat, record: Document, conv: Value -> Value)
    requires i < |schema|
    ensures var f := schema[i];
      ConvertDates(schema[..i + 1], record, conv) ==
        if f.fieldType == "date" && TruthyAt(record, f.field)
        then ConvertDates(schema[..i], record, conv)[f.field := conv(record[f.field])]
        else ConvertDates(schema[..i], record, conv)
  {
    var f := schema[i];
    assert schema[..i + 1] == schema[..i] + [f];
    forall k ensures DateKey(schema[..i + 1], k) <==> DateKey(schema[..i], k) || (f.fieldType == "date" && f.field == k) {
      if DateKey(schema[..i + 1], k) {
        var j :| 0 <= j < i + 1 && schema[..i + 1][j].fieldType == "date" && schema[..i + 1][j].field == k;
        if j < i {
          assert schema[..i][j] == schema[..i + 1][j];
        }
      }
      if DateKey(schema[..i], k) {
        var j :| 0 <= j < i && schema[..i][j].fieldType == "date" && schema[..i][j].field == k;
        assert schema[..i + 1][j] == schema[..i][j];
      }
      if f.fieldType == "date" && f.field == k {
        assert schema[..i + 1][i] == f;
      }
    }
  }

  /** The outcome of pressing Submit: stopped by validation with its messages, or
      the record posted (and, when the server accepted it, the table refetched). */
  datatype SubmitResult = Blocked(messages: seq<string>) | Posted(request: RecordRequest, refetch: bool)

  /** `getColumns` of this page: one plain column per field, then Actions. */
  function FormColumns(schema: seq<FieldSpec>): (cols: seq<Column>)
    ensures ColumnsFollow(schema, cols)
    ensures forall i :: 0 <= i < |schema| ==> cols[i].cell == RawText
  {
    seq(|schema|, i requires 0 <= i < |schema| => Column(schema[i].fieldLabel, Some(schema[i].field), schema[i].field, RawText))
      + [ActionsColumn]
  }

  class DynamicFormPage {
    /** The `:collectionName` route parameter. */
    const collection: string
    var schema: seq<FieldSpec>
    var data: seq<Document>
    /** The values held by the form. */
    var values: Document

    constructor (collection: string)
      ensures this.collection == collection && schema == [] && data == [] && values == map[]
    {
      this.collection := collection;
      schema, data, values := [], [], map[];
    }

    /** `fetchSchema`: take the schema of the configuration the server returns;
        a failed request (`None`, or a status the client treats as an error)
        leaves no fields. */
    method FetchSchema(reply: Option<SchemaStore.Reply>)
      modifies this
      ensures reply.Some? && 200 <= reply.value.status < 300 && reply.value.payload.One? ==>
        schema == reply.value.payload.config.schema
      ensures !(reply.Some? && 200 <= reply.value.status < 300 && reply.value.payload.One?) ==> schema == []
      ensures data == old(data) && values == old(values)
    {
      if reply.Some? && 200 <= reply.value.status < 300 && reply.value.payload.One? {
        schema := reply.value.payload.config.schema;
      } else {
        schema := [];
      }
    }

    /** `fetchData`: the records replace the list; a failure keeps it. */
    method FetchData(response: Option<seq<Document>>)
      modifies this
      ensures response.Some? ==> data == response.value
      ensures response.None? ==> data == old(data)
      ensures schema == old(schema) && values == old(values)
    {
      if response.Some? {
        data := response.value;
      }
    }

    /** `handleEdit(record)`: load the record into the form, its set date values
        turned into picker values by `toPicker`. */
    method HandleEdit(record: Document, toPicker: Value -> Value)
      modifies this
      ensures values == old(values) + ConvertDates(schema, record, toPicker)
      ensures schema == old(schema) && data == old(data)
    {
      var formatted := ConvertDateFields(schema, record, toPicker);
      values := values + formatted;
    }

    /** Submit: validation first; then `onFinish` posts the form's field values,
        set dates printed by `toIso`, always as a new record.  `accepted` is
        whether the server answered with success; then the form is emptied and
        the records are fetched again, `refetched` being that answer. */
    method Submit(isEmail: string -> bool, toIso: Value -> Value, accepted: bool, refetched: Option<seq<Document>>)
      returns (result: SubmitResult)
      modifies this
      ensures Errors(ChecksOf(FormItems(schema)), old(values), isEmail) != [] ==>
        result == Blocked(Errors(ChecksOf(FormItems(schema)), old(values), isEmail)) && values == old(values)
      ensures Errors(ChecksOf(FormItems(schema)), old(values), isEmail) == [] ==>
        result == Posted(PostRecord(collection, ConvertDates(schema, Submitted(old(values), FieldNames(schema)), toIso)), accepted)
        && values == (if accepted then map[] else old(values))
      ensures result.Posted? && accepted && refetched.Some? ==> data == refetched.value
      ensures !(result.Posted? && accepted && refetched.Some?) ==> data == old(data)
      ensures schema == old(schema)
    {
      var errs := Errors(ChecksOf(FormItems(schema)), values, isEmail);
      if errs != [] {
        return Blocked(errs);
      }
      var body := ConvertDateFields(schema, Submitted(values, FieldNames(schema)), toIso);
      result := Posted(PostRecord(collection, body), accepted);
      if accepted {
        values := map[];
        FetchData(refetched);
      }
    }

    /** `handleDelete(id)`: send the delete; when it succeeds, refetch. */
    method HandleDelete(id: Value, deleted: bool, refetched: Option<seq<Document>>) returns (request: RecordRequest)
      modifies this
      ensures request == DeleteRecord(collection, id)
      ensures deleted && refetched.Some? ==> data == refetched.value
      ensures !(deleted && refetched.Some?) ==> data == old(data)
      ensures schema == old(schema) && values == old(values)
    {
      request := DeleteRecord(collection, id);
      if deleted {
        FetchData(refetched);
      }
    }
  }

  /** The page never updates: even after a record is loaded for editing, a
      submission is a create whose body carries no `_id` (unless a form field
      is itself named `_id`), so the server stores a new record. */
  lemma SubmitNeverUpdates(schema: seq<FieldSpec>, values: Document, toIso: Value -> Value)
    requires "_id" !in FieldNames(schema)
    ensures "_id" !in ConvertDates(schema, Submitted(values, FieldNames(schema)), toIso)
  {
  }
}
