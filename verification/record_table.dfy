/** The records page of one collection: a table with one column per field of
    the collection's form and a final Actions column, buttons that navigate to
    the entry page, and a delete that refetches the records. */
module RecordTable {
  import opened Common
  import opened Json
  import opened FormSchema
  import opened RecordViews
  import DynamicFormView
  import SchemaStore

  /** `getColumns`: date fields show their value as a local date, every other
      field its raw value. */
  function TableColumns(schema: seq<FieldSpec>): (cols: seq<Column>)
    ensures ColumnsFollow(schema, cols)
    ensures forall i :: 0 <= i < |schema| ==> (cols[i].cell == LocalDate <==> schema[i].fieldType == "date")
  {
    seq(|schema|, i requires 0 <= i < |schema| =>
      Column(schema[i].fieldLabel, Some(schema[i].field), schema[i].field,
             if schema[i].fieldType == "date" then LocalDate else RawText))
      + [ActionsColumn]
  }

  /** This table and the one on the entry page differ only in how date cells are shown. */
  lemma ColumnsAgreeButDates(schema: seq<FieldSpec>)
    ensures |TableColumns(schema)| == |DynamicFormView.FormColumns(schema)|
    ensures forall i :: 0 <= i < |schema| + 1 && !(i < |schema| && schema[i].fieldType == "date") ==>
      TableColumns(schema)[i] == DynamicFormView.FormColumns(schema)[i]
  {
  }

  /** The Edit button's target. */
  function EditPath(collection: string, id: string): (p: string)
    ensures |p| == 10 + |collection| + |id|
    ensures p[..9] == "/dynamic/" && p[9..9 + |collection|] == collection
    ensures p[9 + |collection|] == '/' && p[10 + |collection|..] == id
  {
    "/dynamic/" + collection + "/" + id
  }

  /** The New Record button's target. */
  function NewPath(collection: string): (p: string)
    ensures |p| == 9 + |collection|
    ensures p[..9] == "/dynamic/" && p[9..] == collection
  {
    "/dynamic/" + collection
  }

  /** The two targets differ exactly by the `/<id>` suffix. */
  lemma EditExtendsNew(collection: string, id: string)
    ensures EditPath(collection, id) == NewPath(collection) + "/" + id
  {
  }

  class TablePage {
    /** The `:collectionName` route parameter. */
    const collection: string
    var schema: seq<FieldSpec>
    var data: seq<Document>

    constructor (collection: string)
      ensures this.collection == collection && schema == [] && data == []
    {
      this.collection := collection;
      schema, data := [], [];
    }

    /** `fetchSchema`: take the schema of the configuration the server returns;
        unlike the entry page, a failure keeps the schema already shown. */
    method FetchSchema(reply: Option<SchemaStore.Reply>)
      modifies this
      ensures reply.Some? && 200 <= reply.value.status < 300 && reply.value.payload.One? ==>
        schema == reply.value.payload.config.schema
      ensures !(reply.Some? && 200 <= reply.value.status < 300 && reply.value.payload.One?) ==> schema == old(schema)
      ensures data == old(data)
    {
      if reply.Some? && 200 <= reply.value.status < 300 && reply.value.payload.One? {
        schema := reply.value.payload.config.schema;
      }
    }

    /** `fetchData`: the records replace the list; a failure keeps it. */
    method FetchData(response: Option<seq<Document>>)
      modifies this
      ensures response.Some? ==> data == response.value
      ensures response.None? ==> data == old(data)
      ensures schema == old(schema)
    {
      if response.Some? {
        data := response.value;
      }
    }

    /** `handleDelete(id)`: send the delete; the row is not removed locally, the
        whole list is refetched when the delete succeeds (`refetched` is what
        that fetch returns), and a failed delete leaves the list as it was. */
    method HandleDelete(id: Value, deleted: bool, refetched: Option<seq<Document>>) returns (request: RecordRequest)
      modifies this
      ensures request == DeleteRecord(collection, id)
      ensures deleted && refetched.Some? ==> data == refetched.value
      ensures !(deleted && refetched.Some?) ==> data == old(data)
      ensures schema == old(schema)
    {
      request := DeleteRecord(collection, id);
      if deleted {
        FetchData(refetched);
      }
    }
  }
}
