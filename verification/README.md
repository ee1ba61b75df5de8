# Dynamic form builder — a Dafny model

The system is a dynamic form builder. An administrator describes a form as a
*form configuration*: a collection name plus an ordered list of field specs.
Each field spec has a name, a type, a label, a required flag and, for select
fields, a list of options.

The backend is an Express server over MongoDB, with three parts:

- The `/formbuilder` routes store the configurations. Each configuration is
  validated by a document model (`collectionName` is required and unique; each
  field needs a name, a type and a label).
- The `/dynamic/:collection` routes store the records of any collection
  untyped, keyed by an ObjectId `_id`.
- `getModel` caches one document model per name.

The React frontend has five parts:

- **Form builder page.** Edits a configuration and saves it with POST or PUT.
- **Entry page.** Renders a configuration as a form. It converts date fields
  between the picker's value and ISO strings, and posts records.
- **Records page.** Shows a collection as a table, with Edit and Delete
  buttons.
- **Fixed user form.** A form of name, email and phone.
- **Layout.** Computes a page heading from the URL (a value the page does not
  display) and builds the sidebar menu from the stored configurations.

The model keeps each file's own form:

- **Stores and pages are classes.** The backend stores and each frontend page
  are classes whose methods update their fields. Each method is proved against
  a specification function, or states its whole new state.
- **The rest is pure.** Validation, casting, route decisions, headings,
  columns and menus are functions, and lemmas state their properties:
  - round trips (casting a builder's fields, splitting and joining the options
    text, converting dates for editing and back for submission);
  - uniqueness invariants the stores keep;
  - if-and-only-if conditions for when a form submits and when a save is
    issued;
  - the headings each navigation target gets.

Modules:

- **`Common`, `Json`.** `Option`, JSON-like values, JavaScript truthiness and
  ObjectId parsing.
- **`Strings`.** `includes`, `split`/`join` and capitalisation.
- **`FormSchema`.** The configuration document model: casting, defaults and
  required strings.
- **`SchemaStore`.** The `/formbuilder` routes over a `ConfigStore` class.
- **`RecordStore`.** The `/dynamic` routes over a `RecordStore` class that
  holds one document list per collection.
- **`ModelRegistry`.** `getModel` and its cache (`Registry`).
- **`FormRules`.** The form library's `required` and `type: 'email'` rules, and
  the values a submit handler receives.
- **`FormBuilderEditor`.** The form builder page (`Editor`).
- **`RecordViews`, `DynamicFormView`, `RecordTable`.** Columns, the entry page
  (`DynamicFormPage`) and the records page (`TablePage`).
- **`SidebarLayout`.** Page headings and the sidebar (`Sidebar`).
- **`UserFormView`.** The user form page (`UserFormPage`).

Things outside the model are parameters:

- MongoDB's fresh ObjectIds and the clock are passed in.
- Server answers reach the pages as arguments: `Option` for a request that may
  fail, or an `accepted` flag.
- The date library's conversions and the email pattern of the form library are
  function parameters.

## Model

| member | source | states |
|---|---|---|
| Json.ParseObjectId | backend/routes/DynamicRoutes.js:31-33 | an id text is accepted exactly when it is 24 hexadecimal digits; the id it names has the same digits, lower-cased |
| Json.ParsePrinted | backend/routes/DynamicRoutes.js:31-33 | printing a well-formed id and parsing it back gives the same id |
| Strings.IndexOf | frontend/src/components/Layout/Layout.jsx:67 | the first occurrence of the separator, with none before it; none exactly when the text does not contain it |
| Strings.Split | frontend/src/components/Layout/Layout.jsx:68 | `String.prototype.split` with a non-empty separator: always at least one piece (its round trip and separator-free pieces are `JoinSplit` and `SplitPiecesFree`) |
| Strings.JoinSplit | frontend/src/components/FormBuilder/FormBuilder.jsx:171 | joining the pieces of a split with the separator gives back the original text |
| Strings.SplitPiecesFree | frontend/src/components/FormBuilder/FormBuilder.jsx:171 | no piece of a split contains the separator |
| Strings.SplitContaining | frontend/src/components/Layout/Layout.jsx:68 | a text that contains the separator splits into at least two pieces, so `[1]` exists |
| Strings.Capitalize | frontend/src/components/Layout/Layout.jsx:70 | same length, first character upper-cased, the rest unchanged |
| FormSchema.CastField | backend/models/FormBuilderSchema.js:10-14 | `required` defaults to false and `options` to empty when omitted, given values are kept; a valid raw field keeps its three required strings |
| FormSchema.CastToRaw | backend/models/FormBuilderSchema.js:10-14 | casting a stored field spec back from its raw form gives the same spec; it is valid exactly when its three strings are non-empty |
| FormSchema.CastSchema | backend/models/FormBuilderSchema.js:9-15 | validation succeeds exactly when every field has a non-empty name, type and label; the result is the field-by-field cast, all complete |
| FormSchema.CastSchemaRoundTrip | backend/models/FormBuilderSchema.js:9-15 | the field specs a client sends come back unchanged in name, type, label, required flag and options; complete ones also pass validation |
| FormSchema.CastSchemaLoose | backend/routes/formBuilderRoutes.js:73-77 | the update-time cast without validators: one spec per raw field, in order, each `CastField` of it |
| FormSchema.NewConfig | backend/models/FormBuilderSchema.js:3-16 | a document is created exactly when the name is a non-empty string and every field validates; it is complete, carries the fresh id, and both timestamps are the creation time |
| FormSchema.UpdatedConfig | backend/routes/formBuilderRoutes.js:73-77 | an update keeps the id and creation time, sets the update time, and replaces the name and every field by its cast |
| SchemaStore.FindByName | backend/routes/formBuilderRoutes.js:31-33 | the first configuration with that name; none exactly when the name is unused |
| SchemaStore.FindById | backend/routes/formBuilderRoutes.js:56 | the first configuration with that id; none exactly when the id is unused |
| SchemaStore.FindByNameUnique | backend/models/FormBuilderSchema.js:4-8 | under the unique index, looking up a stored configuration's name finds that configuration |
| SchemaStore.FindByIdUnique | backend/routes/formBuilderRoutes.js:56 | with distinct ids, looking up a stored configuration's id finds that configuration |
| SchemaStore.RemoveByIdKeepsOthers | backend/routes/formBuilderRoutes.js:56-60 | deleting by id removes exactly the configurations with that id |
| SchemaStore.RemovePreservesUniqueness | backend/routes/formBuilderRoutes.js:56-60 | a delete keeps names unique and ids distinct |
| SchemaStore.AppendPreservesUniqueness | backend/routes/formBuilderRoutes.js:11-23 | appending a configuration with an unused name and id keeps names unique and ids distinct |
| SchemaStore.ReplacePreservesUniqueness | backend/routes/formBuilderRoutes.js:73-85 | replacing a configuration in place, with no other configuration holding the new name, keeps names unique and ids distinct |
| SchemaStore.ConfigStore.Create | backend/routes/formBuilderRoutes.js:5-27 | 400 for a missing name or schema, 400 for a name already used, 400 when validation fails, otherwise 201 with the new configuration appended; the uniqueness invariant is kept |
| SchemaStore.ConfigStore.GetByName | backend/routes/formBuilderRoutes.js:29-41 | 200 with a stored configuration of that name exactly when the name is used, otherwise 404 "Form configuration not found" |
| SchemaStore.ConfigStore.GetAll | backend/routes/formBuilderRoutes.js:44-51 | 200 with every stored configuration and nothing else |
| SchemaStore.ConfigStore.Delete | backend/routes/formBuilderRoutes.js:54-64 | a malformed id is a 500; an unknown id is a 404 with the store unchanged; otherwise that configuration alone is removed and the answer is 200 |
| SchemaStore.ConfigStore.Update | backend/routes/formBuilderRoutes.js:67-86 | 400 for a missing name or schema, 400 for a malformed id, 404 for an unknown id, 400 when another configuration holds the new name, otherwise 200 with the configuration replaced in place; the invariant is kept |
| RecordStore.FindDoc | backend/routes/DynamicRoutes.js:31-33 | the first record whose `_id` is the value; none exactly when no record has it |
| RecordStore.StoredForm | backend/routes/DynamicRoutes.js:7-8 | an inserted record keeps every other key of the body; its `_id` is the body's own when that is set and not `null`, and the fresh id when it is missing or `null`, as the driver fills in any `_id` equal to `null` |
| RecordStore.SetFields | backend/routes/DynamicRoutes.js:73-79 | `$set` of the body without `_id`: body keys take the body's values, other keys keep theirs, the `_id` never changes |
| RecordStore.FindDocUnique | backend/routes/DynamicRoutes.js:31-33 | with distinct ids, looking up a record's `_id` finds that record |
| RecordStore.FindAppended | backend/routes/DynamicRoutes.js:5-9 | appending a record with an unused `_id` keeps ids distinct and makes it findable at the end |
| RecordStore.RemoveDocKeepsOthers | backend/routes/DynamicRoutes.js:52-60 | a delete keeps ids distinct, removes the id, and keeps every other record |
| RecordStore.SetFieldsKeepsIds | backend/routes/DynamicRoutes.js:73-79 | an update keeps ids distinct |
| RecordStore.RecordStore.Docs | backend/routes/DynamicRoutes.js:7 | a collection never written to reads as empty |
| RecordStore.RecordStore.Insert | backend/routes/DynamicRoutes.js:5-13 | a body whose own non-null `_id` is already taken is refused with 400; otherwise 201 with the inserted id, and the record appended and findable; a body whose `_id` is missing or `null` is stored under the fresh id and can then be fetched by GET with its printed form |
| RecordStore.RecordStore.List | backend/routes/DynamicRoutes.js:15-23 | 200 with every record of the collection, in order |
| RecordStore.RecordStore.Get | backend/routes/DynamicRoutes.js:26-44 | 500 for a malformed id, 200 with a record carrying that id when one exists, otherwise 404 "Record not found" |
| RecordStore.RecordStore.Delete | backend/routes/DynamicRoutes.js:47-65 | 500 for a malformed id, 404 for an unknown one, otherwise exactly that record is removed and the id is gone |
| RecordStore.RecordStore.Update | backend/routes/DynamicRoutes.js:68-90 | 500 for a malformed id, 404 for an unknown one, otherwise the record's fields are set from the body without `_id` |
| ModelRegistry.DefaultSchema | backend/utils/modelGenerator.js:3-7 | the default definition has required String paths name, email and phone |
| ModelRegistry.DefaultOptions | backend/utils/modelGenerator.js:19-23 | timestamps on, `id` off, virtuals off in both JSON and object output |
| ModelRegistry.MergedOptions | backend/utils/modelGenerator.js:19-25 | caller options override the defaults key by key; defaults fill the rest |
| ModelRegistry.Definition | backend/utils/modelGenerator.js:17 | the custom schema when given, the default otherwise |
| ModelRegistry.Resolve | backend/utils/modelGenerator.js:9-34 | a cached name returns its model unchanged; otherwise a buildable definition is compiled and cached under the name with merged options, and an unbuildable one throws and caches nothing |
| ModelRegistry.ResolvePreserves | backend/utils/modelGenerator.js:12-29 | a call keeps every model registered under its own name and never drops or replaces one |
| ModelRegistry.ResolveIdempotent | backend/utils/modelGenerator.js:12-15 | after a successful call, calling again with any schema or options changes nothing and returns the same model |
| ModelRegistry.Registry.GetModel | backend/utils/modelGenerator.js:9-34 | the registry and the outcome are those `Resolve` describes |
| FormBuilderEditor.FieldTypeValues | frontend/src/components/FormBuilder/FormBuilder.jsx:16-23 | the values offered by the type selector, in order |
| FormBuilderEditor.FieldTypesClosed | frontend/src/components/FormBuilder/FormBuilder.jsx:16-23 | the six types are text, number, email, select, date and textarea, all distinct |
| FormBuilderEditor.ReadDetermines | frontend/src/components/FormBuilder/FormBuilder.jsx:81-85 | two field specs that read alike on every edited key are equal |
| FormBuilderEditor.ApplyEdit | frontend/src/components/FormBuilder/FormBuilder.jsx:81-85 | the edited key reads as the new value; every other key reads as before |
| FormBuilderEditor.OptionsFromText | frontend/src/components/FormBuilder/FormBuilder.jsx:171 | the options typed as text: joining them with commas gives back the text, and none contains a comma |
| FormBuilderEditor.SaveDecision | frontend/src/components/FormBuilder/FormBuilder.jsx:101-118 | an empty name is refused first, then an empty field list; otherwise a PUT of the edited form when it has an id, a POST otherwise, with the name and fields as body |
| FormBuilderEditor.BodyOf | frontend/src/components/FormBuilder/FormBuilder.jsx:101-118 | the body the page sends names the collection and carries a field list that the server casts back to exactly the editor's fields |
| FormBuilderEditor.IssuedPassesBodyCheck | frontend/src/components/FormBuilder/FormBuilder.jsx:110-118 | every request the page issues passes the server's name-and-schema check |
| FormBuilderEditor.CreateStoresEditorFields | frontend/src/components/FormBuilder/FormBuilder.jsx:116 | a POST with complete fields stores exactly the edited name and fields; one incomplete field makes the server refuse it |
| FormBuilderEditor.BlankFieldRefused | frontend/src/components/FormBuilder/FormBuilder.jsx:65-79 | a freshly added field left blank makes the server refuse the form |
| FormBuilderEditor.Editor.SetCollectionName | frontend/src/components/FormBuilder/FormBuilder.jsx:135 | only the name changes |
| FormBuilderEditor.Editor.AddField | frontend/src/components/FormBuilder/FormBuilder.jsx:65-79 | a blank text field is appended; nothing else changes |
| FormBuilderEditor.Editor.HandleFieldChange | frontend/src/components/FormBuilder/FormBuilder.jsx:81-85 | at a valid index only that field's edited key changes; an index out of range changes nothing |
| FormBuilderEditor.Editor.HandleEdit | frontend/src/components/FormBuilder/FormBuilder.jsx:87-89 | the page now edits that configuration: its id, name and fields |
| FormBuilderEditor.Editor.Save | frontend/src/components/FormBuilder/FormBuilder.jsx:101-125 | the request is `SaveDecision`'s; an accepted save refetches the list and empties the editor, a refused or failed one keeps both |
| FormBuilderEditor.Editor.FetchSavedForms | frontend/src/components/FormBuilder/FormBuilder.jsx:29-39 | the list is replaced by the answer; a failure keeps it |
| FormBuilderEditor.Editor.HandleDelete | frontend/src/components/FormBuilder/FormBuilder.jsx:91-99 | a DELETE of that id; the list is refetched only after a successful delete |
| FormRules.RuleError | frontend/src/components/UserForm/UserForm.jsx:95-119 | a required rule fails exactly on an empty value; an email rule skips an absent, null or empty-string value and fails exactly on any other value that is not an accepted string, the empty list included; the error is the rule's message |
| FormRules.EmptyListFailsBoth | frontend/src/components/UserForm/UserForm.jsx:104-111 | an empty list fails both a required rule and an email rule |
| FormRules.RuleErrorsEmpty | frontend/src/components/UserForm/UserForm.jsx:95-119 | an item reports no message exactly when all its rules pass |
| FormRules.RuleErrors | frontend/src/components/DynamicForm/DynamicForm.jsx:148 | an item reports at most one message per rule, and each message is the message of one of its rules |
| FormRules.ErrorsEmpty | frontend/src/components/DynamicForm/DynamicForm.jsx:143-152 | a form reports no message exactly when every item's rules pass |
| FormRules.Errors | frontend/src/components/DynamicForm/DynamicForm.jsx:143-152 | every message the form reports is the message of some rule of some item |
| FormRules.Submitted | frontend/src/components/DynamicForm/DynamicForm.jsx:64-67 | the submit handler receives the form's values restricted to its item names, unchanged |
| DynamicFormView.WidgetFor | frontend/src/components/DynamicForm/DynamicForm.jsx:84-103 | number, date, email and select types each get their widget, any other type a text input; dates use YYYY-MM-DD and selects offer the field's options |
| DynamicFormView.SelectChoicesFromBuilder | frontend/src/components/DynamicForm/DynamicForm.jsx:92-98 | a select offers exactly the comma-separated options typed in the builder |
| DynamicFormView.FormItems | frontend/src/components/DynamicForm/DynamicForm.jsx:143-152 | one item per field, in order, named by the field, captioned by the label, required as the field says with "<label> is required" |
| DynamicFormView.ChecksOf | frontend/src/components/DynamicForm/DynamicForm.jsx:143-152 | each item checks its own value with its one rule |
| DynamicFormView.FormSubmitsIff | frontend/src/components/DynamicForm/DynamicForm.jsx:143-152 | the entry form submits exactly when every required field has a non-empty value |
| DynamicFormView.ConvertDatesOnlyDates | frontend/src/components/DynamicForm/DynamicForm.jsx:55-72 | date conversion keeps the keys and changes only the values of set date fields |
| DynamicFormView.ConvertDates | frontend/src/components/DynamicForm/DynamicForm.jsx:55-72 | the reference for both date `forEach` loops (picker conversion at load, ISO conversion at submit): the record keeps exactly its keys |
| DynamicFormView.EditSubmitRoundTrip | frontend/src/components/DynamicForm/DynamicForm.jsx:55-72 | when the ISO conversion inverts the picker conversion, converting a record's dates for the picker and back to ISO gives back the record |
| DynamicFormView.EditThenSubmitKeepsFields | frontend/src/components/DynamicForm/DynamicForm.jsx:53-77 | after loading a record for editing, submitting posts every field of the record with its stored value and no key that is not a field, so the record's `_id` is dropped and the post creates a new record |
| DynamicFormView.ConvertDateFields | frontend/src/components/DynamicForm/DynamicForm.jsx:55-60 | the loop over the fields computes the conversion of every set date field |
| DynamicFormView.ConvertOneMore | frontend/src/components/DynamicForm/DynamicForm.jsx:56-60 | one more loop step converts the next field exactly when it is a set date |
| DynamicFormView.FormColumns | frontend/src/components/DynamicForm/DynamicForm.jsx:106-125 | one raw-valued column per field, in order, then Actions |
| DynamicFormView.DynamicFormPage.FetchSchema | frontend/src/components/DynamicForm/DynamicForm.jsx:21-39 | the schema of the configuration received, or none after a failure |
| DynamicFormView.DynamicFormPage.FetchData | frontend/src/components/DynamicForm/DynamicForm.jsx:41-51 | the records are replaced by the answer; a failure keeps them |
| DynamicFormView.DynamicFormPage.HandleEdit | frontend/src/components/DynamicForm/DynamicForm.jsx:53-62 | the form values are overlaid with the record, its set dates converted for the picker |
| DynamicFormView.DynamicFormPage.Submit | frontend/src/components/DynamicForm/DynamicForm.jsx:64-81 | blocked with the rule messages, or a POST of the submitted values with dates converted to ISO; only when the server accepts is the form reset and the record list replaced by the refetched one, kept when that fetch fails |
| DynamicFormView.DynamicFormPage.HandleDelete | frontend/src/components/DynamicForm/DynamicForm.jsx:127-135 | a DELETE of that record; the records are refetched only after success |
| DynamicFormView.SubmitNeverUpdates | frontend/src/components/DynamicForm/DynamicForm.jsx:74 | the posted body carries no `_id` unless a field is named `_id`, so the entry page always creates a new record |
| RecordTable.TableColumns | frontend/src/components/Table/Table.jsx:50-79 | one column per field, in order, then Actions; a column shows a local date exactly when its field is a date |
| RecordTable.ColumnsAgreeButDates | frontend/src/components/Table/Table.jsx:55-60 | this table and the entry page's table differ only in date columns |
| RecordTable.EditPath | frontend/src/components/Table/Table.jsx:68 | the Edit target is `/dynamic/`, the collection, `/` and the id |
| RecordTable.NewPath | frontend/src/components/Table/Table.jsx:85 | the New Record target is `/dynamic/` and the collection |
| RecordTable.EditExtendsNew | frontend/src/components/Table/Table.jsx:68 | the Edit target is the New Record target followed by `/<id>` |
| RecordTable.TablePage.FetchSchema | frontend/src/components/Table/Table.jsx:19-26 | the schema of the configuration received; a failure keeps the schema shown |
| RecordTable.TablePage.FetchData | frontend/src/components/Table/Table.jsx:28-38 | the records are replaced by the answer; a failure keeps them |
| RecordTable.TablePage.HandleDelete | frontend/src/components/Table/Table.jsx:40-48 | a DELETE of that record; the records are refetched only after success |
| SidebarLayout.FixedHeadings | frontend/src/components/Layout/Layout.jsx:62-85 | `/forms` and `/` head the form builder; a path with `/table/` is a records page even if it also has `/dynamic/`; a path with neither is the dashboard |
| SidebarLayout.CurrentPageInfo | frontend/src/components/Layout/Layout.jsx:62-85 | `getCurrentPageInfo` as written: a path gets the records icon exactly when it is not `/forms` or `/` and contains `/table/` anywhere, and the dashboard icon exactly when it is in neither section |
| SidebarLayout.CorrectedPageInfo | frontend/src/components/Layout/Layout.jsx:62-85 | the corrected heading of the Findings row: the same tests anchored at the start of the path, so the records icon goes exactly to paths that start with `/table/` |
| SidebarLayout.TablePath | frontend/src/components/Layout/Layout.jsx:138 | a sidebar link is `/table/` followed by the collection name |
| SidebarLayout.TablePathSplits | frontend/src/components/Layout/Layout.jsx:67-68 | the name after `/table/` in a sidebar link is the collection name |
| SidebarLayout.EditPathSplits | frontend/src/components/Layout/Layout.jsx:75-76 | the name taken from an Edit target is the collection |
| SidebarLayout.EditPathParts | frontend/src/components/Layout/Layout.jsx:77 | an Edit target splits into four parts on `/`, so it counts as an edit |
| SidebarLayout.NewPathSplits | frontend/src/components/Layout/Layout.jsx:75-77 | a New Record target names the collection and splits into three parts, so it counts as a create |
| SidebarLayout.TablePageHeading | frontend/src/components/Layout/Layout.jsx:67-74 | a sidebar link gets the heading "<Name> Records" |
| SidebarLayout.NewPageHeading | frontend/src/components/Layout/Layout.jsx:75-83 | a New Record target gets the heading "Create <Name>" |
| SidebarLayout.EditPageHeading | frontend/src/components/Layout/Layout.jsx:75-83 | an Edit target of any collection other than "table" gets the heading "Edit <Name>" |
| SidebarLayout.EditPathHasNoTable | frontend/src/components/Layout/Layout.jsx:67 | an Edit target of any collection other than "table" does not contain `/table/` |
| SidebarLayout.EditOfTableCollection | frontend/src/components/Layout/Layout.jsx:67-68 | the Edit target of a collection named "table" gets the heading of the records page of its id, not "Edit Table" |
| SidebarLayout.CorrectedEditPageHeading | frontend/src/components/Layout/Layout.jsx:62-85 | with the section tests anchored at the start, every Edit target gets the heading "Edit <Name>" |
| SidebarLayout.CorrectedEntryHeading | frontend/src/components/Layout/Layout.jsx:75-83 | with the section tests anchored at the start, any path under `/dynamic/` gets the heading of an entry page of the name after it, editing exactly when it has more than three `/`-separated parts |
| SidebarLayout.Badge | frontend/src/components/Layout/Layout.jsx:147 | the record count, 0 when absent |
| SidebarLayout.CollectionItems | frontend/src/components/Layout/Layout.jsx:136-155 | one link per collection, in order |
| SidebarLayout.Menu | frontend/src/components/Layout/Layout.jsx:104-158 | the reference for `getMenuItems`: the Form Builder link first; one item per collection plus the link, a divider and a header when there are collections, the link alone otherwise |
| SidebarLayout.MenuShape | frontend/src/components/Layout/Layout.jsx:104-159 | the Form Builder link first; with collections, then a divider, a disabled header and one `/table/<name>` link per collection |
| SidebarLayout.MenuLinksHeaded | frontend/src/components/Layout/Layout.jsx:104-159 | every sidebar link leads to the form builder or to the records page of one of the collections |
| SidebarLayout.Sidebar.FetchCollections | frontend/src/components/Layout/Layout.jsx:48-59 | the collections are the names of the configurations received, without counts; a failure empties them |
| SidebarLayout.Sidebar.MenuItems | frontend/src/components/Layout/Layout.jsx:104-159 | the loop builds exactly `Menu` of the collections |
| SidebarLayout.FetchedBadgesZero | frontend/src/components/Layout/Layout.jsx:147 | collections fetched from the configurations all show a badge of 0 |
| UserFormView.UserRulesIff | frontend/src/components/UserForm/UserForm.jsx:95-119 | the user form submits exactly when the name and phone are non-empty and the email is a non-empty string the email test accepts |
| UserFormView.SubmitDecision | frontend/src/components/UserForm/UserForm.jsx:36-53 | a request is sent exactly for valid values: an update of the user being edited when there is one, a create otherwise, with the valid values as body |
| UserFormView.EditThenSubmitUpdates | frontend/src/components/UserForm/UserForm.jsx:36-58 | after loading a user with an id, valid values update that user |
| UserFormView.UserFormPage.FetchUsers | frontend/src/components/UserForm/UserForm.jsx:17-34 | only an array answer replaces the list |
| UserFormView.UserFormPage.HandleEdit | frontend/src/components/UserForm/UserForm.jsx:55-58 | the values are overlaid with the user, and the user's `_id` is the one being edited |
| UserFormView.UserFormPage.Submit | frontend/src/components/UserForm/UserForm.jsx:36-53 | the request is `SubmitDecision`'s; success resets the form, ends the editing after an update, and replaces the user list by the refetched array (kept when that fetch fails or returns no array); failure keeps everything |
| UserFormView.UserFormPage.HandleDelete | frontend/src/components/UserForm/UserForm.jsx:60-68 | a DELETE of that user; the list is refetched only after success |

## Left out

- ObjectIds are modelled by their 24-digit hexadecimal text. The 12-byte binary form and the time stamp inside an id are not modelled, and fresh ids are parameters.
- JavaScript numbers are modelled as unbounded integers. Floating point does not matter to any decision the core makes.
- Database and network failures other than those the routes answer explicitly are not modelled. The stores never fail on their own, and a failed request reaches a page as `None` or `accepted == false`.
- SchemaStore.ConfigStore.Update: the update runs no validators, so a field spec missing a string is stored without it. The model reads that absent string as "" (`CastField`).
- SchemaStore.ConfigStore.Create: errors other than validation (the cast of a non-array `schema`, database errors) are not modelled. The body is already a typed `ConfigBody`.
- RecordStore.SetFields: `$set` keys with dots or a leading `$` are treated as plain top-level keys.
- RecordStore.RecordStore.Insert: invalid collection names and bodies MongoDB itself rejects are not modelled. Only the duplicate `_id` error is.
- ModelRegistry.Buildable: which schema definitions the schema constructor rejects is abstracted as a set of known type names.
- FormBuilderEditor.Editor.HandleFieldChange: the source writes the new value into the field object shared with the previous state. Aliasing between the old and new state is not captured; the model replaces the field by value.
- FormBuilderEditor.BodyOf: a form loaded for editing carries `_id` and timestamps in the PUT body. The server uses only the name and the schema, so the model sends only those.
- Strings.Capitalize: upper-cases ASCII letters only. JavaScript's `toUpperCase` also maps other letters.
- The users backend routes and the user model are not part of this model. The user page's requests are values, and their outcome is a parameter.
- Date parsing and formatting (`dayjs`, `toISOString`, `toLocaleDateString`) and the form library's email pattern are function parameters.
- Loading flags, success and error notifications, console output, layout and styling, icons, the collapsible sidebar, the user menu, and the commented-out tables are left out. None affects data.
- The order of concurrent requests is left out. Each handler is modelled as completing before the next event.
- RecordStore.RecordStore and SchemaStore.ConfigStore: the two stores are kept disjoint, although in the database they share one namespace. The record routes open any collection by its raw name, so they can address the configuration collection `formbuilders` and the user collection `users`. Records posted there (for instance from the entry page of a form named `formbuilders`) would be listed by GET /api/formbuilders and checked against the unique `collectionName` index. The model does not capture that sharing.
- `server.js`, `db.js`, `App.jsx`, the routes file and `config.js` are left out. They wire the parts together and hold URLs.
- Error replies that carry the database's or the driver's `error.message` (validation failures, ids that are not ObjectIds, duplicate keys) are modelled by a fixed text that message contains (`ValidationFailed`, `CastFailed`, `BadObjectId`, `DuplicateKey`). The rest of the message, which names the path, the value or the index, is not modelled.
- SchemaStore.ConfigStore.Update: a name clash on update is answered with `DuplicateKey`, where the server wraps the duplicate key error of `findByIdAndUpdate` in a findAndModify prefix ("Plan executor error during findAndModify :: caused by :: …"); the model does not carry that wrapper.
- FormSchema.CastSchemaRoundTrip: the document model gives every stored field spec its own subdocument `_id`, which the client never sent. Field specs are modelled without it.
- SidebarLayout.TablePageHeading, SidebarLayout.NewPageHeading, SidebarLayout.EditPageHeading: the path is taken to be the link text itself. The browser percent-encodes characters such as spaces in `location.pathname`, so a name that encoding changes is headed with its encoded form; that is not modelled.
- DynamicFormView.DynamicFormPage.HandleEdit: loading a record merges nested objects into the form's values key by key; the model overlays top-level keys only.
- The record count on sidebar badges is never sent by the server, so every badge shows 0 (`FetchedBadgesZero`).

## Findings

| source | as written | input that shows it | evidently intended | confidence | as-written member | corrected member |
|---|---|---|---|---|---|---|
| frontend/src/components/Layout/Layout.jsx:67-68 | the records-page test looks for `/table/` anywhere in the path, before the entry-page test | the Edit target `/dynamic/table/<id>` of a collection named "table" | the heading is "Edit Table", as for every other Edit target; the defect is latent, because the page never displays the computed heading and no route serves `/dynamic/<collection>/<id>` | high, not executed | SidebarLayout.EditOfTableCollection | SidebarLayout.CorrectedEditPageHeading |
