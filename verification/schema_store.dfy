/** The form-configuration endpoints: create, look up by name, list, delete by
    id and update by id, over a table of configs kept in insertion order.
    Each handler answers with an HTTP status and a payload. */
module SchemaStore {
  import opened Common
  import opened Json
  import opened FormSchema

  datatype Payload = One(config: FormConfig) | Many(configs: seq<FormConfig>) | Message(text: string)

  datatype Reply = Reply(status: int, payload: Payload)

  const InvalidBody: string := "Invalid request body"
  const NameTaken: string := "Collection name already exists"
  const ConfigNotFound: string := "Form configuration not found"
  const DeleteNotFound: string := "Configuration not found"
  const DeleteDone: string := "Configuration deleted successfully"
  /** A fixed text the message of an id that is not an ObjectId contains. */
  const CastFailed: string := "Cast to ObjectId failed"
  /** A fixed text the message of a name clash caught by the unique index contains. */
  const DuplicateKey: string := "E11000 duplicate key error"

  /** The handlers' first check: a body with a non-empty `collectionName` and a `schema`
      (an empty list counts as present). */
  predicate BodyOk(body: Option<ConfigBody>) {
    body.Some? && PresentString(body.value.collectionName) && body.value.schema.Some?
  }

  predicate UniqueNames(cs: seq<FormConfig>) {
    forall i, j :: 0 <= i < j < |cs| ==> cs[i].collectionName != cs[j].collectionName
  }

  predicate DistinctIds(cs: seq<FormConfig>) {
    forall i, j :: 0 <= i < j < |cs| ==> cs[i].id != cs[j].id
  }

  predicate NameUsed(cs: seq<FormConfig>, name: string) {
    exists i :: 0 <= i < |cs| && cs[i].collectionName == name
  }

  predicate IdUsed(cs: seq<FormConfig>, id: ObjectId) {
    exists i :: 0 <= i < |cs| && cs[i].id == id
  }

  /** `findOne({collectionName: name})`: the first config with that name. */
  function FindByName(cs: seq<FormConfig>, name: string): (r: Option<nat>)
    ensures r.Some? ==> r.value < |cs| && cs[r.value].collectionName == name
    ensures r.Some? ==> forall j :: 0 <= j < r.value ==> cs[j].collectionName != name
    ensures r.None? <==> !NameUsed(cs, name)
  {
    if cs == [] then None
    else if cs[0].collectionName == name then Some(0)
    else match FindByName(cs[1..], name)
      case None => None
      case Some(k) => Some(k + 1)
  }

  /** The first config with the given id. */
  function FindById(cs: seq<FormConfig>, id: ObjectId): (r: Option<nat>)
    ensures r.Some? ==> r.value < |cs| && cs[r.value].id == id
    ensures r.Some? ==> forall j :: 0 <= j < r.value ==> cs[j].id != id
    ensures r.None? <==> !IdUsed(cs, id)
  {
    if cs == [] then None
    else if cs[0].id == id then Some(0)
    else match FindById(cs[1..], id)
      case None => None
      case Some(k) => Some(k + 1)
  }

  /** With unique names, the lookup by name finds exactly the config that has it. */
  lemma FindByNameUnique(cs: seq<FormConfig>, i: nat)
    requires UniqueNames(cs) && i < |cs|
    ensures FindByName(cs, cs[i].collectionName) == Some(i)
  {
    var r := FindByName(cs, cs[i].collectionName);
    assert NameUsed(cs, cs[i].collectionName);
  }

  /** With distinct ids, the lookup by id finds exactly the config that has it. */
  lemma FindByIdUnique(cs: seq<FormConfig>, i: nat)
    requires DistinctIds(cs) && i < |cs|
    ensures FindById(cs, cs[i].id) == Some(i)
  {
    assert IdUsed(cs, cs[i].id);
  }

  /** Removing the config with a given id from a table with distinct ids keeps
      every other config and nothing else. */
  lemma RemoveByIdKeepsOthers(cs: seq<FormConfig>, i: nat)
    requires DistinctIds(cs) && i < |cs|
    ensures forall c :: c in RemoveAt(cs, i) <==> c in cs && c.id != cs[i].id
  {
    var r := RemoveAt(cs, i);
    forall c | c in cs && c.id != cs[i].id
      ensures c in r
    {
      var k :| 0 <= k < |cs| && cs[k] == c;
      if k < i { assert r[k] == c; } else { assert k != i; assert r[k - 1] == c; }
    }
  }

  /** Removing an entry keeps names unique and ids distinct. */
  lemma RemovePreservesUniqueness(cs: seq<FormConfig>, i: nat)
    requires UniqueNames(cs) && DistinctIds(cs) && i < |cs|
    ensures UniqueNames(RemoveAt(cs, i)) && DistinctIds(RemoveAt(cs, i))
  {
    var r := RemoveAt(cs, i);
    forall a, b | 0 <= a < b < |r|
      ensures r[a].collectionName != r[b].collectionName && r[a].id != r[b].id
    {
      var a' := if a < i then a else a + 1;
      var b' := if b < i then b else b + 1;
      assert r[a] == cs[a'] && r[b] == cs[b'] && a' < b';
    }
  }

  /** Appending a config whose name and id are new keeps names unique and ids distinct. */
  lemma AppendPreservesUniqueness(cs: seq<FormConfig>, c: FormConfig)
    requires UniqueNames(cs) && DistinctIds(cs)
    requires !NameUsed(cs, c.collectionName) && !IdUsed(cs, c.id)
    ensures UniqueNames(cs + [c]) && DistinctIds(cs + [c])
  {
    var r := cs + [c];
    forall a, b | 0 <= a < b < |r|
      ensures r[a].collectionName != r[b].collectionName && r[a].id != r[b].id
    {
      if b == |cs| {
        assert r[a] == cs[a];
      }
    }
  }

  /** Replacing entry `i` by a config with the same id and a name no other entry has
      keeps names unique and ids distinct. */
  lemma ReplacePreservesUniqueness(cs: seq<FormConfig>, i: nat, c: FormConfig)
    requires UniqueNames(cs) && DistinctIds(cs) && i < |cs|
    requires c.id == cs[i].id
    requires forall j :: 0 <= j < |cs| && j != i ==> cs[j].collectionName != c.collectionName
    ensures UniqueNames(cs[i := c]) && DistinctIds(cs[i := c])
  {
  }

  /** Another entry than `i` already carries `name`. */
  predicate NameClash(cs: seq<FormConfig>, i: nat, name: string) {
    exists j :: 0 <= j < |cs| && j != i && cs[j].collectionName == name
  }

  class ConfigStore {
    /** The stored configurations, in insertion order. */
    var configs: seq<FormConfig>

    /** The unique index on `collectionName`, and distinct well-formed ids. */
    ghost predicate Valid()
      reads this
    {
      UniqueNames(configs) && DistinctIds(configs)
      && forall i :: 0 <= i < |configs| ==> WellFormedId(configs[i].id)
    }

    constructor ()
      ensures Valid() && configs == []
    {
      configs := [];
    }

    /** POST /: create a configuration.  `freshId` is the id the store assigns
        and `now` the current time. */
    method Create(body: Option<ConfigBody>, freshId: ObjectId, now: int) returns (reply: Reply)
      requires Valid()
      requires WellFormedId(freshId) && !IdUsed(configs, freshId)
      modifies this
      ensures Valid()
      ensures !BodyOk(body) ==> reply == Reply(400, Message(InvalidBody)) && configs == old(configs)
      ensures BodyOk(body) && NameUsed(old(configs), body.value.collectionName.value) ==>
        reply == Reply(400, Message(NameTaken)) && configs == old(configs)
      ensures BodyOk(body) && !NameUsed(old(configs), body.value.collectionName.value) ==>
        match NewConfig(body.value, freshId, now)
        case None => reply == Reply(400, Message(ValidationFailed)) && configs == old(configs)
        case Some(c) => reply == Reply(201, One(c)) && configs == old(configs) + [c]
    {
      if !BodyOk(body) {
        return Reply(400, Message(InvalidBody));
      }
      var name := body.value.collectionName.value;
      if FindByName(configs, name).Some? {
        return Reply(400, Message(NameTaken));
      }
      var created := NewConfig(body.value, freshId, now);
      if created.None? {
        return Reply(400, Message(ValidationFailed));
      }
      AppendPreservesUniqueness(configs, created.value);
      configs := configs + [created.value];
      reply := Reply(201, One(created.value));
    }

    /** GET /:collectionName: the config with that name, or 404. */
    function GetByName(name: string): (reply: Reply)
      reads this
      ensures reply.status == 200 || reply.status == 404
      ensures reply.status == 200 <==> NameUsed(configs, name)
      ensures reply.status == 200 ==>
        (reply.payload.One? && reply.payload.config in configs && reply.payload.config.collectionName == name)
      ensures reply.status == 404 ==> reply.payload == Message(ConfigNotFound)
    {
      match FindByName(configs, name)
      case None => Reply(404, Message(ConfigNotFound))
      case Some(i) => Reply(200, One(configs[i]))
    }

    /** GET /: every stored config. */
    function GetAll(): (reply: Reply)
      reads this
      ensures reply.status == 200 && reply.payload.Many?
      ensures forall c :: c in reply.payload.configs <==> c in configs
      ensures |reply.payload.configs| == |configs|
    {
      Reply(200, Many(configs))
    }

    /** DELETE /:id: remove the config with that id.  An id that is not an
        ObjectId makes the store throw, which the handler answers with 500. */
    method Delete(idText: string) returns (reply: Reply)
      requires Valid()
      modifies this
      ensures Valid()
      ensures ParseObjectId(idText).None? ==> reply == Reply(500, Message(CastFailed)) && configs == old(configs)
      ensures ParseObjectId(idText).Some? && !IdUsed(old(configs), ParseObjectId(idText).value) ==>
        reply == Reply(404, Message(DeleteNotFound)) && configs == old(configs)
      ensures ParseObjectId(idText).Some? && IdUsed(old(configs), ParseObjectId(idText).value) ==>
        reply == Reply(200, Message(DeleteDone))
        && |configs| == |old(configs)| - 1
        && forall c :: c in configs <==> c in old(configs) && c.id != ParseObjectId(idText).value
    {
      var id := ParseObjectId(idText);
      if id.None? {
        return Reply(500, Message(CastFailed));
      }
      var found := FindById(configs, id.value);
      if found.None? {
        return Reply(404, Message(DeleteNotFound));
      }
      RemoveByIdKeepsOthers(configs, found.value);
      RemovePreservesUniqueness(configs, found.value);
      configs := RemoveAt(configs, found.value);
      reply := Reply(200, Message(DeleteDone));
    }

    /** PUT /:id: replace the name and fields of the config with that id.  No
        duplicate check is made here: a clash with another config's name is
        refused by the unique index, and that error is answered with 400, as is
        an id that is not an ObjectId. */
    method Update(idText: string, body: Option<ConfigBody>, now: int) returns (reply: Reply)
      requires Valid()
      modifies this
      ensures Valid()
      ensures !BodyOk(body) ==> reply == Reply(400, Message(InvalidBody)) && configs == old(configs)
      ensures BodyOk(body) && ParseObjectId(idText).None? ==>
        reply == Reply(400, Message(CastFailed)) && configs == old(configs)
      ensures BodyOk(body) && ParseObjectId(idText).Some? && !IdUsed(old(configs), ParseObjectId(idText).value) ==>
        reply == Reply(404, Message(ConfigNotFound)) && configs == old(configs)
      ensures BodyOk(body) && ParseObjectId(idText).Some? && IdUsed(old(configs), ParseObjectId(idText).value) ==>
        var i := FindById(old(configs), ParseObjectId(idText).value).value;
        var name := body.value.collectionName.value;
        if NameClash(old(configs), i, name) then
          reply == Reply(400, Message(DuplicateKey)) && configs == old(configs)
        else
          var c := UpdatedConfig(old(configs)[i], name, body.value.schema.value, now);
          reply == Reply(200, One(c)) && configs == old(configs)[i := c]
    {
      if !BodyOk(body) {
        return Reply(400, Message(InvalidBody));
      }
      var id := ParseObjectId(idText);
      if id.None? {
        return Reply(400, Message(CastFailed));
      }
      var found := FindById(configs, id.value);
      if found.None? {
        return Reply(404, Message(ConfigNotFound));
      }
      var i := found.value;
      var name := body.value.collectionName.value;
      if NameClash(configs, i, name) {
        return Reply(400, Message(DuplicateKey));
      }
      var c := UpdatedConfig(configs[i], name, body.value.schema.value, now);
      ReplacePreservesUniqueness(configs, i, c);
      configs := configs[i := c];
      reply := Reply(200, One(c));
    }
  }
}
