/** What the record pages share: the table columns built from a form's field
    specs, and the requests they send to the record endpoints. */
module RecordViews {
  import opened Common
  import opened Json
  import opened FormSchema

  /** How a column shows its cell: the stored value as it is, the value as a
      local date, or the row's Edit/Delete buttons. */
  datatype Cell = RawText | LocalDate | RowActions

  datatype Column = Column(title: string, dataIndex: Option<string>, key: string, cell: Cell)

  /** The final column of every record table. */
  const ActionsColumn: Column := Column("Actions", None, "actions", RowActions)

  /** The columns follow the schema: one per field, in order, titled with its
      label and showing and keyed by its name, then the Actions column last. */
  predicate ColumnsFollow(schema: seq<FieldSpec>, cols: seq<Column>) {
    && |cols| == |schema| + 1
    && (forall i :: 0 <= i < |schema| ==>
          cols[i].title == schema[i].fieldLabel && cols[i].dataIndex == Some(schema[i].field)
          && cols[i].key == schema[i].field && cols[i].cell != RowActions)
    && cols[|schema|] == ActionsColumn
  }

  /** A request to the record endpoints of `/dynamic`. */
  datatype RecordRequest =
    | PostRecord(collection: string, body: Document)
    | DeleteRecord(collection: string, id: Value)
}
