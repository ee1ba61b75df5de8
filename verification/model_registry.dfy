/** The model registry: `getModel(name, customSchema, options)` returns the model
    already registered under `name`, or builds one from the custom schema (or
    the default name/email/phone schema) and the merged schema options, and
    registers it under `name`.  A failure to build the schema is rethrown. */
module ModelRegistry {
  import opened Common
  import opened Json

  /** One path of a schema definition: its type name and whether it is required. */
  datatype PathSpec = PathSpec(typeName: string, required: bool)

  type SchemaDef = map<string, PathSpec>

  /** Schema options, e.g. `timestamps`, `id`, `toJSON`. */
  type SchemaOptions = map<string, Value>

  datatype Model = Model(name: string, definition: SchemaDef, options: SchemaOptions)

  /** What a call gives back: the model, or the error it rethrew. */
  datatype Outcome = Returned(model: Model) | Threw(message: string)

  /** A label standing for whatever error the schema constructor threw and
      `getModel` rethrew; the model does not reproduce that error's message. */
  const InvalidSchema: string := "Invalid schema configuration"

  /** `{ name, email, phone }`, each a required String. */
  function DefaultSchema(): (d: SchemaDef)
    ensures d.Keys == {"name", "email", "phone"}
    ensures forall k :: k in d ==> d[k] == PathSpec("String", true)
  {
    map["name" := PathSpec("String", true), "email" := PathSpec("String", true), "phone" := PathSpec("String", true)]
  }

  /** `{ timestamps: true, id: false, toJSON: {virtuals: false}, toObject: {virtuals: false} }`. */
  function DefaultOptions(): (o: SchemaOptions)
    ensures o.Keys == {"timestamps", "id", "toJSON", "toObject"}
    ensures o["timestamps"] == Bool(true) && o["id"] == Bool(false)
    ensures o["toJSON"] == Obj(map["virtuals" := Bool(false)]) && o["toObject"] == Obj(map["virtuals" := Bool(false)])
  {
    map[
      "timestamps" := Bool(true),
      "id" := Bool(false),
      "toJSON" := Obj(map["virtuals" := Bool(false)]),
      "toObject" := Obj(map["virtuals" := Bool(false)])]
  }

  /** `{ ...defaults, ...options }`: a caller's key replaces the default one as a
      whole (the spread is shallow); every other default stays. */
  function MergedOptions(options: SchemaOptions): (r: SchemaOptions)
    ensures r.Keys == DefaultOptions().Keys + options.Keys
    ensures forall k :: k in options ==> r[k] == options[k]
    ensures forall k :: k in DefaultOptions() && k !in options ==> r[k] == DefaultOptions()[k]
  {
    DefaultOptions() + options
  }

  /** `customSchema || defaultSchema`: a missing custom schema falls back to the default. */
  function Definition(customSchema: Option<SchemaDef>): (d: SchemaDef)
    ensures customSchema.None? ==> d == DefaultSchema()
    ensures customSchema.Some? ==> d == customSchema.value
  {
    customSchema.GetOr(DefaultSchema())
  }

  /** Building a schema succeeds when every path names a type the schema library knows. */
  predicate Buildable(d: SchemaDef, knownTypes: set<string>) {
    forall p :: p in d ==> d[p].typeName in knownTypes
  }

  /** The registry after a call and what the call gives back. */
  datatype Step = Step(models: map<string, Model>, outcome: Outcome)

  /** One call of `getModel` on a registry. */
  function Resolve(models: map<string, Model>, name: string, customSchema: Option<SchemaDef>,
                   options: SchemaOptions, knownTypes: set<string>): (s: Step)
    ensures name in models ==> s == Step(models, Returned(models[name]))
    ensures name !in models && !Buildable(Definition(customSchema), knownTypes) ==>
      s.models == models && s.outcome.Threw?
    ensures name !in models && Buildable(Definition(customSchema), knownTypes) ==>
      s.outcome.Returned? && s.models == models[name := s.outcome.model]
      && s.outcome.model == Model(name, Definition(customSchema), MergedOptions(options))
  {
    if name in models then Step(models, Returned(models[name]))
    else
      var d := Definition(customSchema);
      if !Buildable(d, knownTypes) then Step(models, Threw(InvalidSchema))
      else
        var m := Model(name, d, MergedOptions(options));
        Step(models[name := m], Returned(m))
  }

  /** Every model is registered under its own name. */
  predicate Consistent(models: map<string, Model>) {
    forall n :: n in models ==> models[n].name == n
  }

  /** A call keeps every model registered under its own name, and never drops or
      replaces a model that was there. */
  lemma ResolvePreserves(models: map<string, Model>, name: string, customSchema: Option<SchemaDef>,
                         options: SchemaOptions, knownTypes: set<string>)
    requires Consistent(models)
    ensures Consistent(Resolve(models, name, customSchema, options, knownTypes).models)
    ensures forall n :: n in models ==>
      (n in Resolve(models, name, customSchema, options, knownTypes).models
       && Resolve(models, name, customSchema, options, knownTypes).models[n] == models[n])
    ensures Resolve(models, name, customSchema, options, knownTypes).outcome.Returned? ==>
      Resolve(models, name, customSchema, options, knownTypes).outcome.model.name == name
  {
  }

  /** Calling again with the same name returns the same model and changes
      nothing, whatever schema and options the second call passes. */
  lemma ResolveIdempotent(models: map<string, Model>, name: string,
                          customSchema: Option<SchemaDef>, options: SchemaOptions,
                          customSchema2: Option<SchemaDef>, options2: SchemaOptions,
                          knownTypes: set<string>)
    requires Resolve(models, name, customSchema, options, knownTypes).outcome.Returned?
    ensures var first := Resolve(models, name, customSchema, options, knownTypes);
            Resolve(first.models, name, customSchema2, options2, knownTypes) == first
  {
  }

  class Registry {
    /** `mongoose.models`: the models registered so far, by name. */
    var models: map<string, Model>

    ghost predicate Valid()
      reads this
    {
      Consistent(models)
    }

    constructor ()
      ensures Valid() && models == map[]
    {
      models := map[];
    }

    /** `getModel(name, customSchema, options)`; `knownTypes` are the type names
        the schema library accepts. */
    method GetModel(name: string, customSchema: Option<SchemaDef>, options: SchemaOptions, knownTypes: set<string>)
      returns (outcome: Outcome)
      requires Valid()
      modifies this
      ensures Valid()
      ensures Step(models, outcome) == Resolve(old(models), name, customSchema, options, knownTypes)
    {
      ResolvePreserves(models, name, customSchema, options, knownTypes);
      if name in models {
        return Returned(models[name]);
      }
      var definition := customSchema.GetOr(DefaultSchema());
      if !Buildable(definition, knownTypes) {
        return Threw(InvalidSchema);
      }
      var m := Model(name, definition, MergedOptions(options));
      models := models[name := m];
      outcome := Returned(m);
    }
  }
}
