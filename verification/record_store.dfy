/** The generic record endpoints: documents kept per collection name, created
    on first insert, addressed by their `_id`.  Insert, list, get, delete and
    update each answer with an HTTP status and a payload. */
module RecordStore {
  import opened Common
  import opened Json

  datatype Payload = Inserted(insertedId: Value) | Many(docs: seq<Document>) | One(doc: Document) | Message(text: string)

  datatype Reply = Reply(status: int, payload: Payload)

  const IdKey: string := "_id"
  const RecordNotFound: string := "Record not found"
  const RecordDeleted: string := "Record deleted successfully"
  const RecordUpdated: string := "Record updated successfully"
  /** A fixed text the message of the error thrown when an id is not an ObjectId contains. */
  const BadObjectId: string := "input must be a 24 character hex string"
  /** A fixed text the message of the error raised when an inserted `_id` is already taken contains. */
  const DuplicateKey: string := "E11000 duplicate key error"

  predicate HasId(d: Document, v: Value) {
    IdKey in d && d[IdKey] == v
  }

  /** Every document carries an `_id`, and no two carry the same one. */
  predicate DistinctDocIds(docs: seq<Document>) {
    && (forall i :: 0 <= i < |docs| ==> IdKey in docs[i])
    && (forall i, j :: 0 <= i < j < |docs| ==> docs[i][IdKey] != docs[j][IdKey])
  }

  predicate IdTaken(docs: seq<Document>, v: Value) {
    exists i :: 0 <= i < |docs| && HasId(docs[i], v)
  }

  /** `findOne({_id: v})`: the first document whose `_id` is `v`. */
  function FindDoc(docs: seq<Document>, v: Value): (r: Option<nat>)
    ensures r.Some? ==> r.value < |docs| && HasId(docs[r.value], v)
    ensures r.Some? ==> forall j :: 0 <= j < r.value ==> !HasId(docs[j], v)
    ensures r.None? <==> !IdTaken(docs, v)
  {
    if docs == [] then None
    else if HasId(docs[0], v) then Some(0)
    else match FindDoc(docs[1..], v)
      case None => None
      case Some(k) => Some(k + 1)
  }

  /** The body brings its own `_id`: the driver only fills in one that is
      missing or `null`. */
  predicate OwnId(body: Document) {
    IdKey in body && body[IdKey] != Null
  }

  /** `insertOne(body)`: a body whose `_id` is missing or `null` is given the
      fresh one; a body with its own `_id` keeps it. */
  function StoredForm(body: Document, freshId: ObjectId): (d: Document)
    ensures IdKey in d
    ensures !OwnId(body) ==> d[IdKey] == Oid(freshId)
    ensures OwnId(body) ==> d == body
    ensures d.Keys == body.Keys + {IdKey}
    ensures forall k :: k in body && k != IdKey ==> d[k] == body[k]
  {
    if OwnId(body) then body else body[IdKey := Oid(freshId)]
  }

  /** `updateOne(..., {$set: body without _id})`: every supplied field is
      overwritten or added, every other field is kept, and `_id` never changes. */
  function SetFields(doc: Document, body: Document): (r: Document)
    ensures r.Keys == doc.Keys + (body.Keys - {IdKey})
    ensures IdKey in doc ==> r[IdKey] == doc[IdKey]
    ensures forall k :: k in body && k != IdKey ==> r[k] == body[k]
    ensures forall k :: k in doc && k !in body ==> r[k] == doc[k]
  {
    doc + (body - {IdKey})
  }

  /** The only document that carries an id is the one the lookup finds, so the
      lookup of a stored document's id finds that document. */
  lemma FindDocUnique(docs: seq<Document>, i: nat)
    requires DistinctDocIds(docs) && i < |docs|
    ensures FindDoc(docs, docs[i][IdKey]) == Some(i)
  {
    assert HasId(docs[i], docs[i][IdKey]);
  }

  /** A document appended with an unused id is found by that id at the end. */
  lemma FindAppended(docs: seq<Document>, d: Document)
    requires DistinctDocIds(docs) && IdKey in d && !IdTaken(docs, d[IdKey])
    ensures DistinctDocIds(docs + [d])
    ensures FindDoc(docs + [d], d[IdKey]) == Some(|docs|)
  {
    var r := docs + [d];
    forall i, j | 0 <= i < j < |r|
      ensures r[i][IdKey] != r[j][IdKey]
    {
      if j == |docs| {
        assert r[i] == docs[i];
        assert !HasId(docs[i], d[IdKey]);
      }
    }
    FindDocUnique(r, |docs|);
  }

  /** Removing a document keeps the others, in order, and their distinct ids;
      the removed id is no longer found. */
  lemma RemoveDocKeepsOthers(docs: seq<Document>, i: nat)
    requires DistinctDocIds(docs) && i < |docs|
    ensures DistinctDocIds(RemoveAt(docs, i))
    ensures !IdTaken(RemoveAt(docs, i), docs[i][IdKey])
    ensures forall j :: 0 <= j < |docs| && j != i ==> docs[j] in RemoveAt(docs, i)
  {
    var r := RemoveAt(docs, i);
    forall a, b | 0 <= a < b < |r|
      ensures r[a][IdKey] != r[b][IdKey]
    {
      var a' := if a < i then a else a + 1;
      var b' := if b < i then b else b + 1;
      assert r[a] == docs[a'] && r[b] == docs[b'] && a' < b';
    }
    forall k | 0 <= k < |r|
      ensures !HasId(r[k], docs[i][IdKey])
    {
      var k' := if k < i then k else k + 1;
      assert r[k] == docs[k'];
    }
    forall j | 0 <= j < |docs| && j != i
      ensures docs[j] in r
    {
      if j < i { assert r[j] == docs[j]; } else { assert r[j - 1] == docs[j]; }
    }
  }

  /** Merging fields into one document keeps the collection's ids distinct. */
  lemma SetFieldsKeepsIds(docs: seq<Document>, i: nat, body: Document)
    requires DistinctDocIds(docs) && i < |docs|
    ensures DistinctDocIds(docs[i := SetFields(docs[i], body)])
  {
  }

  class RecordStore {
    /** The documents of each collection that has been written to, in insertion order. */
    var collections: map<string, seq<Document>>

    ghost predicate Valid()
      reads this
    {
      forall n :: n in collections ==> DistinctDocIds(collections[n])
    }

    /** The documents of a collection; one never written to reads as empty. */
    function Docs(name: string): (docs: seq<Document>)
      reads this
      ensures name !in collections ==> docs == []
      ensures name in collections ==> docs == collections[name]
    {
      if name in collections then collections[name] else []
    }

    constructor ()
      ensures Valid() && collections == map[]
    {
      collections := map[];
    }

    /** POST /:collection: insert the body, creating the collection if needed.
        `freshId` is the ObjectId the driver generates. */
    method Insert(name: string, body: Document, freshId: ObjectId) returns (reply: Reply)
      requires Valid()
      requires WellFormedId(freshId) && !IdTaken(Docs(name), Oid(freshId))
      modifies this
      ensures Valid()
      ensures OwnId(body) && IdTaken(old(Docs(name)), body[IdKey]) ==>
        reply == Reply(400, Message(DuplicateKey)) && collections == old(collections)
      ensures !(OwnId(body) && IdTaken(old(Docs(name)), body[IdKey])) ==>
        var d := StoredForm(body, freshId);
        reply == Reply(201, Inserted(d[IdKey]))
        && collections == old(collections)[name := old(Docs(name)) + [d]]
        && FindDoc(Docs(name), d[IdKey]) == Some(|old(Docs(name))|)
      ensures !OwnId(body) ==> Get(name, freshId.hex) == Reply(200, One(StoredForm(body, freshId)))
    {
      var docs := Docs(name);
      if OwnId(body) && FindDoc(docs, body[IdKey]).Some? {
        return Reply(400, Message(DuplicateKey));
      }
      var d := StoredForm(body, freshId);
      FindAppended(docs, d);
      collections := collections[name := docs + [d]];
      reply := Reply(201, Inserted(d[IdKey]));
      ParsePrinted(freshId);
    }

    /** GET /:collection: all documents of the collection. */
    function List(name: string): (reply: Reply)
      reads this
      ensures reply.status == 200 && reply.payload.Many?
      ensures reply.payload.docs == Docs(name)
    {
      Reply(200, Many(Docs(name)))
    }

    /** GET /:collection/:id: the document with that ObjectId, 404 when none has
        it, 500 when the id is not an ObjectId. */
    function Get(name: string, idText: string): (reply: Reply)
      reads this
      ensures ParseObjectId(idText).None? ==> reply == Reply(500, Message(BadObjectId))
      ensures ParseObjectId(idText).Some? ==>
        if IdTaken(Docs(name), Oid(ParseObjectId(idText).value))
        then reply.status == 200 && reply.payload.One? && reply.payload.doc in Docs(name)
          && HasId(reply.payload.doc, Oid(ParseObjectId(idText).value))
        else reply == Reply(404, Message(RecordNotFound))
    {
      match ParseObjectId(idText)
      case None => Reply(500, Message(BadObjectId))
      case Some(id) =>
        match FindDoc(Docs(name), Oid(id))
        case None => Reply(404, Message(RecordNotFound))
        case Some(i) => Reply(200, One(Docs(name)[i]))
    }

    /** DELETE /:collection/:id: remove the document with that ObjectId. */
    method Delete(name: string, idText: string) returns (reply: Reply)
      requires Valid()
      modifies this
      ensures Valid()
      ensures ParseObjectId(idText).None? ==>
        reply == Reply(500, Message(BadObjectId)) && collections == old(collections)
      ensures ParseObjectId(idText).Some? && !IdTaken(old(Docs(name)), Oid(ParseObjectId(idText).value)) ==>
        reply == Reply(404, Message(RecordNotFound)) && collections == old(collections)
      ensures ParseObjectId(idText).Some? && IdTaken(old(Docs(name)), Oid(ParseObjectId(idText).value)) ==>
        var i := FindDoc(old(Docs(name)), Oid(ParseObjectId(idText).value)).value;
        reply == Reply(200, Message(RecordDeleted))
        && collections == old(collections)[name := RemoveAt(old(Docs(name)), i)]
        && !IdTaken(Docs(name), Oid(ParseObjectId(idText).value))
    {
      var id := ParseObjectId(idText);
      if id.None? {
        return Reply(500, Message(BadObjectId));
      }
      var docs := Docs(name);
      var found := FindDoc(docs, Oid(id.value));
      if found.None? {
        return Reply(404, Message(RecordNotFound));
      }
      RemoveDocKeepsOthers(docs, found.value);
      collections := collections[name := RemoveAt(docs, found.value)];
      reply := Reply(200, Message(RecordDeleted));
    }

    /** PUT /:collection/:id: drop any `_id` from the body and `$set` the rest
        into the document with that ObjectId. */
    method Update(name: string, idText: string, body: Document) returns (reply: Reply)
      requires Valid()
      modifies this
      ensures Valid()
      ensures ParseObjectId(idText).None? ==>
        reply == Reply(500, Message(BadObjectId)) && collections == old(collections)
      ensures ParseObjectId(idText).Some? && !IdTaken(old(Docs(name)), Oid(ParseObjectId(idText).value)) ==>
        reply == Reply(404, Message(RecordNotFound)) && collections == old(collections)
      ensures ParseObjectId(idText).Some? && IdTaken(old(Docs(name)), Oid(ParseObjectId(idText).value)) ==>
        var i := FindDoc(old(Docs(name)), Oid(ParseObjectId(idText).value)).value;
        reply == Reply(200, Message(RecordUpdated))
        && collections == old(collections)[name := old(Docs(name))[i := SetFields(old(Docs(name))[i], body)]]
    {
      var id := ParseObjectId(idText);
      if id.None? {
        return Reply(500, Message(BadObjectId));
      }
      var docs := Docs(name);
      var found := FindDoc(docs, Oid(id.value));
      if found.None? {
        return Reply(404, Message(RecordNotFound));
      }
      var i := found.value;
      SetFieldsKeepsIds(docs, i, body);
      collections := collections[name := docs[i := SetFields(docs[i], body)]];
      reply := Reply(200, Message(RecordUpdated));
    }
  }
}
